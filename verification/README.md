# Verification of multi-agents-open

A Dafny model of the stateful core of the orchestrator: the Developer phase with its commits, rollbacks and crash recovery,
the agent prompt loops, the OpenCode event bridge, the context cache, cost tracking, the approval services, the activity
stream, the merge phase and the JSON extractor. What agents, builds, users, git hosts and clocks do is arbitrary: it enters as
arguments. `dafny verify dfyconfig.toml` checks the project.

Services follow one pattern. A datatype `State`, a datatype `Op` and a function `Step` say what a call does; lemmas about
`Run(ops)` hold for every sequence of calls; a class with the service's own fields has one method per call, whose contract
says that its abstract state moves by `Step`, and `Serve` joins the two: an object after any calls is in the state `Run(ops)`.
What that state holds is said a second time from the calls alone (`Waits`, `Registration`, `TaskMode`, `Waiting`, `Amounts`,
`Asked`, `AcceptedAtOnce`), and the two are proved equal over every run.
Loops of the source are loops here. A story is a function of the judgements, builds, answers and writes it meets: the m-th moment
in which the phase awaits something may write anything.

| file | models |
|---|---|
| `PromptLoops.dfy` | the DEV/JUDGE/SPY/FIX and ANALYST/JUDGE/SPY/FIX loops |
| `Repositories.dfy`, `DeveloperStory.dfy` | one story: its session, builds, approval, commit or rollback |
| `DeveloperPhase.dfy`, `StoryProgress.dfy` | all stories of a task, what is reported of them, and crashes and resumes |
| `EventBridge.dfy` | the bridge as a step system; `EventBridgeSubscriptions.dfy`, `EventBridgeLogs.dfy`, `EventBridgeWaiters.dfy` prove its three invariants, `EventBridgeService.dfy` is the class |
| `ActivityLog.dfy` | the bridge's batching of log entries |
| `DirectoryScan.dfy`, `ContextRefresh.dfy`, `ContextCache.dfy` | scanning, refreshing and evicting project contexts |
| `CostTracker.dfy` | costs per task and session, their persistence and what a crash loses |
| `Approvals.dfy`, `ApprovalMode.dfy` | phase approvals and approval modes |
| `ActivityStream.dfy` | throttling, batching and history of activities |
| `MergePhase.dfy` | pull requests and merges |
| `JsonExtraction.dfy` | the balanced-brace extractor |

## Where the code departs from its comments

The model follows the code. Each point has the exact condition, and an input where the code fails it.

- The `continue` after a third failed build continues the build loop and not the story loop. The story is reported twice and
  still goes through approval, so a story reported as rejected can leave a commit (`EachStoryReported`,
  `RejectedStoryCommitsIff`, `RejectedStoryWithCommit`).
- A story's session is closed before the waits for build fixes and feedback, which can then only time out
  (`WaitOnInactive`, `ClosedSessionDecides`, `ClosedSessionTimesOut`).
- A session can end with a prompt that nobody waits for: if a wait throws (`TimedOutWait`), and if nothing throws but the third
  round still asks for a fix, in the analysis also after a rejection (`StoryDiscipline`, `AnalysisDiscipline`,
  `RejectionLeavesPrompt`). If the agent writes then, the next story commits it (`LateWriteKeepsIsolationIff`).
- A resumed phase reports the stories it skips as approved, whatever their verdict was (`ResumedReportsIff`,
  `ResumedSuccessIff`, `RejectionForgotten`). It does not clear what the interrupted attempt left, so a story that changes
  nothing itself the second time can be rejected for it (`ResumedFatesIff`, `LeftoversRejectStory`); if the second attempt
  does what the first did, a crash anywhere is harmless (`CrashAnywhere`).
- Registering an active session id again breaks the subscription count (`StepKeepsSubscriptionsIff`), and a reconnect timer of
  a dropped subscription brings its loop back, so events are logged twice (`HandlersRegisteredAlwaysIff`,
  `StaleReconnectDoublesEvents`).
- Asking for approval under a key that is pending orphans the earlier request (`AskKeepsInvIff`, `RepeatedRequestIsOrphaned`);
  `request_changes` is audited as an approval and a cancellation as a rejection (`AuditEqualIff`, `AuditHidesChanges`); a task id
  that extends another past a colon is cancelled with it (`PrefixSeparatesIff`, `CancelReachesOtherTask`).
- A story's session is recorded as `all` or `manual`, past the mode the task was switched to (`InsertKeepsAgreementIff`,
  `PhaseSessionIgnoresWorkMode`).
- A cost recorded before a restore replaces the stored one (`RecordAddsIff`, `RecordBeforeRestore`), and the cent that bounds
  the loss in a crash does not bound the tokens (`CrashBound`, `RecordStoresTokensIff`,
  `TokensCanBeLost`).
- Clearing an activity history drops what is pending (`ClearPassesOnIff`, `ClearDropsPending`); shutting the bridge down drops log entries queued
  during its last flush (`ShutdownKeepsIff`, `ShutdownLosesEntry`).
- A refresh compares hashes of decoded text, so a size can stay stale (`RefreshEqualsRebuildIff`,
  `StaleSizeSurvivesRefresh`), and it leaves the file tree as it was (`RefreshKeepsTreeIff`, `TreeMissesNewFile`); a context over 80 MB is evicted as
  soon as it is built, once the total exceeds 100 MB (`NewestSurvivesIff`, `NewestCanBeEvicted`).
- Merge results are matched by pull request number, which two repositories can share (`ReportedCorrectlyIff`,
  `MisreportedMerge`).

## Model

| member | source | states |
|---|---|---|
| `DeveloperPhase.ExecuteDeveloperPhase` | src/orchestration/phases/DeveloperPhaseV2.ts:544-1289 | from any repositories and any resume index: the repositories at the end are exactly those the stories leave one after another, the events on the way are exactly those of the stories in order, the commit count equals the growth of the commit lists, and the results are exactly the reports of the stories' fates; it succeeds exactly if every story it carries out ends well (JUDGE approves, and it changes nothing or one of three builds passes and the user, if asked, approves), and then every repository has gained one commit of all the work of each story that changed something |
| `DeveloperPhase.PhaseOutcomeCommits` | src/orchestration/phases/DeveloperPhaseV2.ts:625-1228 | a phase adds to every repository exactly the commits of its stories, in order: the first with what it found uncommitted, every other with what was written during it, and none for a story that is not kept or wrote nothing there |
| `DeveloperPhase.PhaseReaches` | src/orchestration/phases/DeveloperPhaseV2.ts:622-1228 | the events of a phase are legal and reach what its stories leave, so it can be cut off anywhere |
| `DeveloperPhase.SuccessIff` | src/orchestration/phases/DeveloperPhaseV2.ts:1231-1231 | all results are approvals exactly if every story that is carried out ends well, said of the judgements, builds, answers and writes alone |
| `DeveloperPhase.SuccessCommitsAll` | src/orchestration/phases/DeveloperPhaseV2.ts:1095-1130 | a phase that succeeds has committed all the work of its stories: per repository and story what it found and everything written until it was over, in one commit |
| `DeveloperPhase.CarryOut` | src/orchestration/phases/DeveloperPhaseV2.ts:660-1226 | one turn of the story loop: the next state is what the story makes of the last, its events follow those before, its fate is reported, and its index is stored |
| `DeveloperPhase.Skip` | src/orchestration/phases/DeveloperPhaseV2.ts:629-647 | a story before the resume index is reported as approved |
| `DeveloperStory.DevelopStory` | src/orchestration/phases/DeveloperPhaseV2.ts:665-1182 | verdict, repositories, commits, double report and events of one story are those its judgements, builds, answers and writes determine; it is approved exactly if it ends well, reported twice exactly if JUDGE approves it, it changes something and no build passes; approved, it leaves all its work in one commit per repository, and neither approved nor reported twice it leaves none |
| `DeveloperStory.ApprovedIff` | src/orchestration/phases/DeveloperPhaseV2.ts:699-1151 | the verdict over the inputs alone: approved exactly if no call of the session throws, JUDGE is content in the first round in which it does not ask for more, and either nothing was found or written or one of three builds passes and the user, if asked, approves |
| `DeveloperStory.WorkInOutcome` | src/orchestration/phases/DeveloperPhaseV2.ts:1095-1180 | a story that ends well leaves one commit per repository of what it found and everything written there, if it changed something; one that is neither approved nor reported twice leaves every repository clean without a new commit |
| `DeveloperStory.StoryReplay` | src/orchestration/phases/DeveloperPhaseV2.ts:665-1180 | carrying out the events of a story one by one leaves exactly its outcome, and they are work of that story only |
| `DeveloperStory.OutcomeCommits` | src/orchestration/phases/DeveloperPhaseV2.ts:705-1180 | a story leaves a repository clean, with its old commits and exactly one more, of what it found and everything written there, if JUDGE approved, something changed, the user (if asked) approved and there is anything to commit; after three failed builds only what the approval rounds wrote counts |
| `DeveloperStory.VerifyAndApprove` | src/orchestration/phases/DeveloperPhaseV2.ts:722-1151 | builds, approval and conclusion of a story that changed something; an approval after three failed builds still commits |
| `DeveloperStory.Verify` | src/orchestration/phases/DeveloperPhaseV2.ts:722-840 | after the builds the repositories hold what the story found and wrote up to the last build, or, after three failures, nothing uncommitted |
| `DeveloperStory.BuildLoop` | src/orchestration/phases/DeveloperPhaseV2.ts:731-840 | passes exactly if one of at most three builds passes, after everything written in 1, 4 or 7 moments; otherwise everything uncommitted is gone and the commits are unchanged |
| `DeveloperStory.Ask` | src/orchestration/phases/DeveloperPhaseV2.ts:843-1093 | with auto-approval nobody is asked and nothing is written; otherwise the approval rounds decide |
| `DeveloperStory.ApprovalLoop` | src/orchestration/phases/DeveloperPhaseV2.ts:844-1088 | approves exactly if, within five rounds, an approval follows only feedback that was carried out, with everything written in exactly the moments of those rounds |
| `DeveloperStory.ApprovalRound` | src/orchestration/phases/DeveloperPhaseV2.ts:852-1088 | one round decides, or goes on after feedback that was carried out |
| `DeveloperStory.UserApprovesIff` | src/orchestration/phases/DeveloperPhaseV2.ts:844-1088 | the user approves exactly if one of five answers is an approval and every answer before it is feedback that was carried out |
| `DeveloperStory.Conclude` | src/orchestration/phases/DeveloperPhaseV2.ts:1095-1151 | an approved story is committed everywhere, any other is rolled back everywhere, and the commits are counted |
| `DeveloperStory.Session` | src/orchestration/phases/DeveloperPhaseV2.ts:1322-1594 | the verdict of a story's session, and the repositories with everything written up to its end or its first exception |
| `DeveloperStory.ProposedIff` | src/orchestration/phases/DeveloperPhaseV2.ts:705-722 | a story goes to builds and approval exactly if JUDGE approved it and it found or wrote anything |
| `DeveloperStory.WrittenAt` | src/orchestration/phases/DeveloperPhaseV2.ts:1405-1410 | writing appends to what is uncommitted, in order, and leaves commits alone |
| `DeveloperStory.RejectedStoryCommitsIff` | src/orchestration/phases/DeveloperPhaseV2.ts:801-838 | a story is reported as rejected and leaves a commit exactly when JUDGE approved it, it changed something, its three builds failed, the user was asked and approved, and something was written in the approval rounds |
| `DeveloperStory.RejectedStoryWithCommit` | src/orchestration/phases/DeveloperPhaseV2.ts:801-838 | such a story, without any successful exchange on the closed session: reported as rejected, with one commit |
| `DeveloperPhase.EachStoryReported` | src/orchestration/phases/DeveloperPhaseV2.ts:831-837 | every story appears once in the results, and twice exactly when its builds failed three times |
| `DeveloperPhase.SuccessExact` | src/orchestration/phases/DeveloperPhaseV2.ts:1231-1231 | all results are approvals exactly when every story's fate is approval |
| `DeveloperPhase.SameFromClean` | src/orchestration/phases/DeveloperPhaseV2.ts:708-722 | the fate of a story depends only on what it writes and what it finds uncommitted |
| `DeveloperPhase.SameFateIff` | src/orchestration/phases/DeveloperPhaseV2.ts:705-840 | what a story finds uncommitted changes its fate exactly if only one of two starts is clean, JUDGE approves it, its session writes nothing, and it fails its builds or is not approved; then the clean start is approved and the other rejected |
| `DeveloperPhase.StoryIsLegal` | src/orchestration/phases/DeveloperPhaseV2.ts:660-1225 | a story whose work leaves everything clean can be started, finished and its index stored |
| `DeveloperPhase.PhaseIsolates` | src/orchestration/phases/DeveloperPhaseV2.ts:625-1228 | at every moment of a phase, which its judgements, builds, answers and writes determine, and after any crash and resume, commits hold only edits of their own story |
| `DeveloperPhase.ResumedFatesIff` | src/orchestration/phases/DeveloperPhaseV2.ts:622-722 | a phase resumed after a crash that left anything at all has the fates of the uninterrupted one, with every skipped story approved and reported once, exactly if what was left does not disturb the story it starts with |
| `DeveloperPhase.ReportsInjective` | src/orchestration/phases/DeveloperPhaseV2.ts:1182-1182 | the reports determine the fates |
| `DeveloperPhase.ResumedReportsIff` | src/orchestration/phases/DeveloperPhaseV2.ts:629-647 | whatever a crash left, the resumed phase reports what the uninterrupted one reports exactly if every story it skips was approved and reported once and the story it starts with is not disturbed |
| `DeveloperPhase.ResumedSuccessIff` | src/orchestration/phases/DeveloperPhaseV2.ts:1231-1231 | whatever a crash left, the resumed phase is as successful as the uninterrupted one exactly if a later story is not approved; or, undisturbed, every skipped story was approved or the one it starts with is not; or, disturbed, a skipped story was not approved and the one it starts with would have been |
| `DeveloperPhase.CrashIsHarmless` | src/orchestration/phases/DeveloperPhaseV2.ts:622-1228 | a phase over clean repositories, cut off at any event, leaves nothing that disturbs the story it is resumed with if that story's session writes the same again |
| `DeveloperPhase.CrashAnywhere` | src/orchestration/phases/DeveloperPhaseV2.ts:622-1228 | a phase over clean repositories, cut off at any event and resumed with equal judgements, builds, answers and writes, has the fates of the uninterrupted one, with every skipped story approved and reported once |
| `DeveloperPhase.RejectionForgotten` | src/orchestration/phases/DeveloperPhaseV2.ts:629-647 | a rejected first story: the phase that goes on fails, the one that crashes after storing its index and is resumed succeeds |
| `DeveloperPhase.LeftoversRejectStory` | src/orchestration/phases/DeveloperPhaseV2.ts:705-840 | an attempt that writes and crashes, then one that writes nothing and whose builds fail: without the crash the phase succeeds, with it it fails |
| `Repositories.CommitAll` | src/orchestration/phases/DeveloperPhaseV2.ts:1098-1116 | every repository with changes gets one commit of all of them, and the counter equals the number of new commits |
| `Repositories.DiscardAll` | src/orchestration/phases/DeveloperPhaseV2.ts:1132-1144 | every repository loses its changes and keeps its commits |
| `Repositories.AnyChanges` | src/orchestration/phases/DeveloperPhaseV2.ts:710-720 | finds changes exactly if some repository has any |
| `StoryProgress.IsolationAlways` | src/orchestration/phases/DeveloperPhaseV2.ts:622-1225 | over every legal run with any number of crashes: each commit holds only edits made during its story, and what is uncommitted belongs to the story the next process starts with |
| `StoryProgress.CoverageAlways` | src/orchestration/OrchestratorV2.ts:272-275 | over any number of crashes and resumes: each index is stored exactly once and in order; a story is started once plus once per crash between starting it and storing its index, and finished once plus once per crash between finishing it and storing its index |
| `StoryProgress.NothingAfterSaved` | src/orchestration/phases/DeveloperPhaseV2.ts:622-647 | nothing of a story is started, written, committed, finished or stored after its index was stored |
| `StoryProgress.CommitsBounded` | src/orchestration/phases/DeveloperPhaseV2.ts:1222-1225 | a story is committed to a repository at most once, plus once per crash between that commit and storing its index |
| `StoryProgress.AllCarriedOut` | src/orchestration/OrchestratorV2.ts:546-550 | when the last index is stored every story has been carried out |
| `StoryProgress.LegalPrefix` | src/orchestration/phases/DeveloperPhaseV2.ts:622-647 | a legal run cut off anywhere and followed by a crash is legal |
| `StoryProgress.LegalConcat` | src/orchestration/OrchestratorV2.ts:272-275 | a process that starts from the stored index extends a legal run to a legal run |
| `StoryProgress.BodyIsLegal` | src/orchestration/phases/DeveloperPhaseV2.ts:665-1180 | whatever the work on the next story writes and discards, and whatever it commits once per repository, is legal and changes only the repositories |
| `StoryProgress.LateWriteKeepsIsolationIff` | src/orchestration/phases/DeveloperPhaseV2.ts:1518-1533 | a write of an earlier story, after its end, keeps isolation exactly when it writes nothing; otherwise the next commit there holds foreign edits |
| `PromptLoops.ExecuteStory` | src/orchestration/phases/DeveloperPhaseV2.ts:1384-1593 | what is sent and awaited is the story's script up to the first call that throws, in the order worker or fixer, JUDGE, SPY with a wait after each; a prompt is left exactly after an odd number of calls; approved exactly if nothing throws and JUDGE is content in the round that decides, in need of revision exactly if nothing throws and all three rounds ask for more, rejected otherwise |
| `PromptLoops.StoryVerdictExact` | src/orchestration/phases/DeveloperPhaseV2.ts:1512-1538 | the first round in which JUDGE does not ask for a revision with issues decides: approved if it approves or lists no issue, rejected if it rejects |
| `PromptLoops.ReviewRound` | src/orchestration/phases/DeveloperPhaseV2.ts:1389-1498 | one round up to SPY completes the script of that many rounds unless a call throws |
| `PromptLoops.StoryDiscipline` | src/orchestration/phases/DeveloperPhaseV2.ts:1384-1593 | over every run, whatever throws: every wait consumes the one outstanding prompt and two are never outstanding; a prompt is left exactly when the call that threw was a wait, or nothing threw and all three judgements ask for a revision and list issues; JUDGE and SPY are asked once per round |
| `PromptLoops.TimedOutWait` | src/orchestration/phases/DeveloperPhaseV2.ts:1404-1592 | JUDGE would approve, but the first wait throws: the story is rejected and its prompt is left |
| `PromptLoops.ExecuteAnalysis` | src/orchestration/phases/AnalysisPhaseV2.ts:766-949 | the same for the analysis loop: order of the calls, prompt left, stories at hand; unless a call throws it is approved exactly if one of three rounds is good (approved, or no issue, a score of at least 50 and stories at hand), and stops at the first good round |
| `PromptLoops.StoriesAtHand` | src/orchestration/phases/AnalysisPhaseV2.ts:796-801 | the stories at hand are those of the last output that could be parsed, and none before the first |
| `PromptLoops.AnalysisDiscipline` | src/orchestration/phases/AnalysisPhaseV2.ts:766-945 | the same discipline over every run, whatever throws; a prompt is left exactly when the call that threw was a wait, or nothing threw, three rounds pass and the last judgement is no approval and lists issues |
| `PromptLoops.RejectionLeavesPrompt` | src/orchestration/phases/AnalysisPhaseV2.ts:889-907 | three rejections that list issues leave a prompt behind in the analysis and none in a story |
| `PromptLoops.ScriptCount` | src/orchestration/phases/DeveloperPhaseV2.ts:1384-1498 | n rounds ask JUDGE and SPY n times, wait 3n times and leave nothing outstanding |
| `PromptLoops.ScriptInOrder` | src/orchestration/phases/DeveloperPhaseV2.ts:1389-1498 | n rounds are 6n calls in the order worker or fixer, JUDGE, SPY, each followed by its wait |
| `EventBridgeSubscriptions.StepKeepsSubscriptionsIff` | src/services/opencode/OpenCodeEventBridge.ts:149-286 | a step keeps "a directory has a subscription exactly if it has active sessions, with their number as count and exactly one of a running loop or a pending reconnect" if and only if it does not register an active id again |
| `EventBridgeSubscriptions.SubscribedAlways` | src/services/opencode/OpenCodeEventBridge.ts:149-286 | the invariant holds in every state reached without registering an active id again |
| `EventBridgeSubscriptions.LoopLives` | src/services/opencode/OpenCodeEventBridge.ts:225-286 | over every run that registers no active id again: a loop ends with its stream or at the first event after it was told to stop, a registered one then has a timer, and when that fires the loop runs again |
| `EventBridgeSubscriptions.RegisterActive` | src/services/opencode/OpenCodeEventBridge.ts:149-198 | registering an active id again always breaks the count |
| `EventBridgeSubscriptions.HandlersStayRegisteredIff` | src/services/opencode/OpenCodeEventBridge.ts:244-286 | a step keeps every event-handling loop registered if and only if it is not a reconnect of a dropped subscription |
| `EventBridgeSubscriptions.HandlersRegisteredAlwaysIff` | src/services/opencode/OpenCodeEventBridge.ts:149-286 | a run that registers no active id again keeps every event-handling loop registered in all its states exactly if none of its steps is a reconnect of a dropped subscription |
| `EventBridgeSubscriptions.OneHandlerAlways` | src/services/opencode/OpenCodeEventBridge.ts:149-286 | in every state of such a run at most one loop per directory passes events on |
| `EventBridgeSubscriptions.StaleReconnectDoublesEvents` | src/services/opencode/OpenCodeEventBridge.ts:244-286 | a run in which a stale timer revives a dropped loop and one event is logged twice |
| `EventBridgeSubscriptions.UnregisterTaskExact` | src/services/opencode/OpenCodeEventBridge.ts:936-949 | unregistering a task removes exactly its sessions and keeps the order of the others |
| `EventBridgeLogs.ActiveAsRegistered` | src/services/opencode/OpenCodeEventBridge.ts:149-216 | in every reachable state a session is active exactly if the calls say so, with the task and directory of its last registration |
| `EventBridgeLogs.ExactLogs` | src/services/opencode/OpenCodeEventBridge.ts:293-347 | in every reachable state the log of an active session is exactly the events routed to it, in order, since it became active or was cleared; other sessions have none |
| `EventBridgeLogs.LiveEventsAreLogged` | src/services/opencode/OpenCodeEventBridge.ts:293-347 | over every run that registers no active id again, the running loop of an active session's directory logs every event of that session that arrives on it |
| `EventBridgeLogs.RouteExact` | src/services/opencode/OpenCodeEventBridge.ts:299-337 | in every reachable state an event with a session id goes to that session exactly if it is active; one without goes exactly to the session of its directory that has been active longest |
| `EventBridgeLogs.MapOrderIsActivationOrder` | src/services/opencode/OpenCodeEventBridge.ts:149-198 | the session map lists sessions in the order in which they became active |
| `EventBridgeWaiters.WaitersAreWaits` | src/services/opencode/OpenCodeEventBridge.ts:498-554 | over every run the w-th wait listens for the session that the w-th call named |
| `EventBridgeWaiters.WaiterProtocol` | src/services/opencode/OpenCodeEventBridge.ts:498-554 | over every interleaving a wait is settled exactly by the first later idle or error event of the session its call named or by its timeout, and is still waiting if there was none |
| `EventBridgeWaiters.SettlesAtMostOnce` | src/services/opencode/OpenCodeEventBridge.ts:498-554 | a settled wait never changes again |
| `EventBridgeWaiters.IdleResultHasIdleEvent` | src/services/opencode/OpenCodeEventBridge.ts:343-360 | an idle result is the log with the idle event at its end |
| `EventBridgeWaiters.UnregisterLeavesOnlyTimeout` | src/services/opencode/OpenCodeEventBridge.ts:203-216 | a wait whose session is unregistered first can only time out |
| `EventBridgeWaiters.WaitOnInactive` | src/services/opencode/OpenCodeEventBridge.ts:498-554 | a wait on a session, as its call named it, that is never active meanwhile can only time out |
| `EventBridgeWaiters.ClosedSessionTimesOut` | src/services/opencode/OpenCodeEventBridge.ts:329-337 | a session is unregistered, waited for and becomes idle: the idle event is dropped and the wait times out |
| `EventBridgeService.Bridge.constructor` | src/services/opencode/OpenCodeEventBridge.ts:45-48 | no sessions, subscriptions, logs or waits: the initial state of the step system |
| `EventBridgeService.Bridge.RegisterSession` | src/services/opencode/OpenCodeEventBridge.ts:149-198 | registration: the new state of the service is that of the step system |
| `EventBridgeService.Bridge.UnregisterSession` | src/services/opencode/OpenCodeEventBridge.ts:203-239 | unregistration, listeners included: the new state of the service is that of the step system |
| `EventBridgeService.Bridge.UnregisterTaskSessions` | src/services/opencode/OpenCodeEventBridge.ts:936-949 | unregistration of all sessions of a task, one by one: the new state of the service is that of the step system |
| `EventBridgeService.Bridge.StartDirectoryEventLoop` | src/services/opencode/OpenCodeEventBridge.ts:244-247 | the start of a loop, which clears the stop flag: the new state of the service is that of the step system |
| `EventBridgeService.Bridge.OnStreamEvent` | src/services/opencode/OpenCodeEventBridge.ts:255-268 | one event of a stream: the new state of the service is that of the step system |
| `EventBridgeService.Bridge.OnStreamEnd` | src/services/opencode/OpenCodeEventBridge.ts:270-285 | the end of a stream: the new state of the service is that of the step system |
| `EventBridgeService.Bridge.OnReconnectTimer` | src/services/opencode/OpenCodeEventBridge.ts:281-284 | the reconnect timer: the new state of the service is that of the step system |
| `EventBridgeService.Bridge.HandleEvent` | src/services/opencode/OpenCodeEventBridge.ts:293-360 | routing, logging and signalling of one event: the new state of the service is that of the step system |
| `EventBridgeService.Bridge.WaitForSessionIdle` | src/services/opencode/OpenCodeEventBridge.ts:498-554 | the new state is that of the step system: one more waiter, for the named session |
| `EventBridgeService.Bridge.OnWaitTimeout` | src/services/opencode/OpenCodeEventBridge.ts:503-507 | the timeout of a wait: the new state of the service is that of the step system |
| `EventBridgeService.Bridge.ClearSessionEvents` | src/services/opencode/OpenCodeEventBridge.ts:566-568 | clearing a log: the new state of the service is that of the step system |
| `EventBridgeService.Serve` | src/services/opencode/OpenCodeEventBridge.ts:45-568 | a new bridge after any sequence of calls and outside events is in the state of the step system, with the subscription invariant under its condition |
| `ActivityLog.NothingLost` | src/services/opencode/OpenCodeEventBridge.ts:96-142 | for every task the batches handed over, in order, followed by the pending entries are the queued entries; batches have at most 50 and fewer than 50 are pending |
| `ActivityLog.QueueConserves` | src/services/opencode/OpenCodeEventBridge.ts:119-142 | queueing adds exactly one entry to one task's sequence |
| `ActivityLog.FlushConserves` | src/services/opencode/OpenCodeEventBridge.ts:96-114 | flushing hands over exactly what was pending |
| `ActivityLog.QueuePending` | src/services/opencode/OpenCodeEventBridge.ts:119-142 | a full batch is handed over whole and leaves nothing pending for its task |
| `ActivityLog.ShutdownKeepsIff` | src/services/opencode/OpenCodeEventBridge.ts:954-968 | a shutdown hands over everything queued for a task but the entries that filled no batch after its flush; it loses nothing exactly if the number queued since is a multiple of 50 |
| `ActivityLog.ShutdownLosesEntry` | src/services/opencode/OpenCodeEventBridge.ts:954-968 | one entry queued while a shutdown waits for the database is lost |
| `ActivityLog.Batcher.DropPending` | src/services/opencode/OpenCodeEventBridge.ts:966-966 | the end of a shutdown drops what is pending |
| `ActivityLog.Serve` | src/services/opencode/OpenCodeEventBridge.ts:96-142 | a new batcher after any sequence of calls is in the state of the step system and has lost nothing |
| `ActivityLog.Batcher.QueueActivityLog` | src/services/opencode/OpenCodeEventBridge.ts:119-142 | the new state is that of the step system |
| `ActivityLog.Batcher.FlushAllActivityLogs` | src/services/opencode/OpenCodeEventBridge.ts:96-114 | the new state is that of the step system |
| `DirectoryScan.ScanDirectory` | src/services/context/ContextCacheService.ts:209-280 | caches exactly the files found below a directory, with their records, and the file leaves of the tree are exactly those files |
| `DirectoryScan.ScanForChanges` | src/services/context/ContextCacheService.ts:371-402 | records exactly the same files with their hashes |
| `DirectoryScan.FoundIff` | src/services/context/ContextCacheService.ts:209-280 | a scan counts a file exactly if a chain of listed entries that no pattern ignores leads to it through directories, its name is accepted, it can be read and has at most 500 KB |
| `DirectoryScan.LightScanRefinesFullScan` | src/services/context/ContextCacheService.ts:371-402 | both scanners record the same paths, hashes and modification times |
| `ContextRefresh.BuildContext` | src/services/context/ContextCacheService.ts:169-204 | a fresh build caches exactly the files on disk with matching totals |
| `ContextRefresh.FreshMatchesDisk` | src/services/context/ContextCacheService.ts:209-280 | a fresh build has a record of exactly those files, with their content, its hash, their size and time |
| `ContextRefresh.BuiltTreeShows` | src/services/context/ContextCacheService.ts:169-204 | the tree of a fresh build shows exactly the cached files, with their sizes and hashes |
| `ContextRefresh.ComputeSize` | src/services/context/ContextCacheService.ts:183-186 | the total size is the sum over the cached files |
| `ContextRefresh.DetectChanges` | src/services/context/ContextCacheService.ts:334-366 | the four lists are the difference between the cache and the disk |
| `ContextRefresh.ApplyDiff` | src/services/context/ContextCacheService.ts:407-445 | removed paths are gone, changed and added ones are read again, the rest is kept, totals match, the tree is left as it was |
| `ContextRefresh.RefreshContext` | src/services/context/ContextCacheService.ts:309-329 | detection followed by patching refreshes the cached files, leaves the file tree as it was, and makes the context younger exactly if something changed |
| `ContextRefresh.PatchRefreshes` | src/services/context/ContextCacheService.ts:407-445 | patching with the detected difference refreshes |
| `ContextRefresh.NoChangeRefreshes` | src/services/context/ContextCacheService.ts:309-329 | leaving the context alone when no difference is found refreshes too |
| `ContextRefresh.NoDiffIff` | src/services/context/ContextCacheService.ts:334-366 | no difference is found exactly if the disk has the cached paths with the cached hashes |
| `ContextRefresh.RefreshHasFreshHashes` | src/services/context/ContextCacheService.ts:334-445 | a refresh always has exactly the paths, hashes and number of files of a fresh build |
| `ContextRefresh.RefreshEqualsRebuildIff` | src/services/context/ContextCacheService.ts:334-445 | a refresh equals a rebuild, sizes and contents included, exactly if the cached files with a matching hash match the disk; then the totals are equal |
| `ContextRefresh.RefreshKeepsTreeIff` | src/services/context/ContextCacheService.ts:407-445 | after a refresh the tree still shows the cached files exactly if nothing had changed |
| `ContextRefresh.StaleSizeSurvivesRefresh` | src/services/context/ContextCacheService.ts:371-402 | a file of one invalid byte, cached and then replaced by the three bytes that decode alike, keeps its size in a refresh, and the totals differ from a rebuild |
| `ContextRefresh.TreeMissesNewFile` | src/services/context/ContextCacheService.ts:407-445 | a file that appears after the build is cached by the refresh and missing in the tree |
| `ContextCache.Cache.EvictIfNeeded` | src/services/context/ContextCacheService.ts:567-588 | above 100 MB the evicted contexts are removed and counted and at most 80 MB remain; otherwise the cache and the count are unchanged |
| `ContextCache.Trim` | src/services/context/ContextCacheService.ts:567-588 | which contexts stay, how many go, and the bound on what remains |
| `ContextCache.EvictsIff` | src/services/context/ContextCacheService.ts:567-575 | something is evicted exactly when there is more than 100 MB |
| `ContextCache.RemainingTotal` | src/services/context/ContextCacheService.ts:579-587 | removing the first k contexts by age leaves the total of the others |
| `ContextCache.NewestCanBeEvicted` | src/services/context/ContextCacheService.ts:567-588 | a context of 90 MB is evicted as soon as it is built beside one of 20 MB |
| `ContextCache.Shrink` | src/services/context/ContextCacheService.ts:573-587 | the loop removes exactly the cut prefix of the contexts by age |
| `ContextCache.CutIsShortest` | src/services/context/ContextCacheService.ts:579-587 | the cut is the shortest oldest-first prefix that brings the total to 80 MB |
| `ContextCache.ByAgeSorts` | src/services/context/ContextCacheService.ts:575-577 | sorting keeps the contexts and their total and puts the oldest first |
| `ContextCache.KeptExactly` | src/services/context/ContextCacheService.ts:579-587 | exactly the contexts that are not evicted are kept |
| `ContextCache.KeptAreNewer` | src/services/context/ContextCacheService.ts:567-588 | every kept context is at least as recent as every evicted one |
| `ContextCache.NewestSurvivesIff` | src/services/context/ContextCacheService.ts:567-588 | the newest context is evicted exactly if eviction runs and it alone exceeds 80 MB |
| `CostTracker.Conservation` | src/services/cost/CostTracker.ts:54-122 | over every run a task's totals equal the restored baseline plus the sum over its sessions |
| `CostTracker.StepConserves` | src/services/cost/CostTracker.ts:54-122 | each step keeps that equation |
| `CostTracker.SessionsHoldTheirAmounts` | src/services/cost/CostTracker.ts:84-100 | over every run a summary maps a session to the sum of exactly the amounts recorded for that session since the task was cleared or the process crashed, and holds no other session |
| `CostTracker.RecordSums` | src/services/cost/CostTracker.ts:83-105 | recording adds the amount to the total and to the sum over the sessions |
| `CostTracker.RecordAddsIff` | src/services/cost/CostTracker.ts:69-81 | a recorded cost is added to what is known exactly if it does not start a summary over a stored cost |
| `CostTracker.RecordBeforeRestore` | src/services/cost/CostTracker.ts:69-81 | after a crash, a cost recorded before the restore makes the stored cost forgotten |
| `CostTracker.RecordKeepsSync` | src/services/cost/CostTracker.ts:110-121 | recording keeps the stored cost within a cent below the one in memory |
| `CostTracker.StoredStep` | src/services/cost/CostTracker.ts:110-165 | the stored row of a task changes exactly when it is asked to be stored, is cleared, or moves to another cent, and then holds the totals in memory |
| `CostTracker.RestoreGivesBack` | src/services/cost/CostTracker.ts:141-247 | storing or clearing a task and restoring it after a crash gives back its totals, cost and tokens alike |
| `CostTracker.StepLoss` | src/services/cost/CostTracker.ts:205-247 | a crash loses less than a cent of a task's cost and no other step loses any |
| `CostTracker.CrashBound` | src/services/cost/CostTracker.ts:110-121 | over every orderly run k crashes lose less than k cents |
| `CostTracker.RecordStoresTokensIff` | src/services/cost/CostTracker.ts:110-121 | recording keeps the stored tokens equal to those in memory exactly if it adds none or moves the cost to another cent |
| `CostTracker.TokensCanBeLost` | src/services/cost/CostTracker.ts:110-121 | any number of tokens recorded without cost is lost in a crash |
| `CostTracker.Tracker.RecordCost` | src/services/cost/CostTracker.ts:54-122 | the new state is that of the step system; by `SessionsHoldTheirAmounts` the amount is booked on its own session |
| `CostTracker.Tracker.PersistCostToDb` | src/services/cost/CostTracker.ts:141-165 | the new state is that of the step system |
| `CostTracker.Tracker.RestoreCostsFromDb` | src/services/cost/CostTracker.ts:205-247 | the new state is that of the step system; restored says whether the task is in memory |
| `CostTracker.Tracker.ClearTask` | src/services/cost/CostTracker.ts:324-328 | the new state is that of the step system |
| `CostTracker.Serve` | src/services/cost/CostTracker.ts:47-328 | a tracker after any sequence of calls and restarts is in the state of the step system |
| `Approvals.ProtocolHolds` | src/services/realtime/ApprovalService.ts:87-217 | over every run that never asks for a pending key again, with colon-free task ids: a request is settled at most once, pending exactly until then, only pending ones have timers, and settlements and audit entries correspond one to one |
| `Approvals.RequestsAsCalled` | src/services/realtime/ApprovalService.ts:87-138 | over every run the requests are those of the calls, in order |
| `Approvals.TimersAsCalled` | src/services/realtime/ApprovalService.ts:108-138 | over every orderly run a request has an armed timer exactly if it is pending and was given a timeout |
| `Approvals.SettledExactlyByItsCauses` | src/services/realtime/ApprovalService.ts:144-217 | a step settles a request exactly if it is pending and the step is a response for its task and phase, its task's cancellation, or its timeout |
| `Approvals.AskKeepsInvIff` | src/services/realtime/ApprovalService.ts:87-138 | asking keeps the protocol exactly if the key is not pending |
| `Approvals.RepeatedRequestIsOrphaned` | src/services/realtime/ApprovalService.ts:127-136 | asking twice under one key leaves the first request neither pending nor settled |
| `Approvals.StepKeepsInv` | src/services/realtime/ApprovalService.ts:87-217 | every other step keeps the protocol |
| `Approvals.CancelExact` | src/services/realtime/ApprovalService.ts:198-217 | cancelling a task rejects exactly its pending requests, in order |
| `Approvals.PrefixSeparatesIff` | src/services/realtime/ApprovalService.ts:200-200 | the prefix test tells two task ids apart exactly if neither extends the other past a colon |
| `Approvals.CancelReachesOtherTask` | src/services/realtime/ApprovalService.ts:198-217 | cancelling task `a` rejects a request of task `a:b` and logs it under `a` |
| `Approvals.AuditEqualIff` | src/services/realtime/ApprovalService.ts:156-168 | of two histories that settle the same requests in order the audit logs are equal exactly if they differ only between approval and request for changes, or rejection and cancellation |
| `Approvals.AuditHidesChanges` | src/services/realtime/ApprovalService.ts:160-160 | a request for changes and an approval leave equal logs, and so do a cancellation and a rejection, though they settle the request differently |
| `Approvals.KeyInjective` | src/services/realtime/ApprovalService.ts:93-93 | with colon-free task ids the key determines task and phase |
| `Approvals.Service.RequestApproval` | src/services/realtime/ApprovalService.ts:87-138 | the new state is that of the step system |
| `Approvals.Service.ResolveWithAction` | src/services/realtime/ApprovalService.ts:144-178 | the new state is that of the step system; the result says whether the key was pending |
| `Approvals.Service.CancelTask` | src/services/realtime/ApprovalService.ts:198-217 | the loop over the map cancels what the step system cancels |
| `Approvals.Service.OnTimeout` | src/services/realtime/ApprovalService.ts:114-124 | the new state is that of the step system |
| `Approvals.Service.GetPendingApprovalForTask` | src/services/realtime/ApprovalService.ts:222-234 | the first pending request with the task's prefix, and none exactly if there is none |
| `Approvals.Serve` | src/services/realtime/ApprovalService.ts:41-217 | a new service after any sequence of calls is in the state of the step system, and follows the protocol if the calls are orderly |
| `ApprovalMode.AgreementAlways` | src/services/approval/ApprovalModeService.ts:36-330 | over every sequence of calls the active sessions of a task share one mode, equal to a cached one |
| `ApprovalMode.AgreementMeansOneMode` | src/services/approval/ApprovalModeService.ts:36-123 | what agreement means, pair by pair |
| `ApprovalMode.RowsAsCalled` | src/services/approval/ApprovalModeService.ts:95-123 | in every reachable state a session has the task it was first registered for, is active exactly until it is completed, and has the mode of its task at registration, then the modes its task is set to while it is active |
| `ApprovalMode.ModesAsCalled` | src/services/approval/ApprovalModeService.ts:36-90 | in every reachable state the mode of a task is the one it was last set to, as long as it is cached or has an active session, and manual otherwise |
| `ApprovalMode.NeverSetIsManual` | src/services/approval/ApprovalModeService.ts:78-90 | a task whose mode was never set is in manual mode, whatever else was called |
| `ApprovalMode.PendingAsCalled` | src/services/approval/ApprovalModeService.ts:128-330 | in every reachable state a permission is pending, under its own task and session, exactly if it was last asked for by a registered session in manual mode and has neither been answered nor dropped with its session or task since |
| `ApprovalMode.StepKeepsAgreement` | src/services/approval/ApprovalModeService.ts:36-330 | every call keeps agreement |
| `ApprovalMode.InsertKeepsAgreementIff` | src/database/repositories/SessionRepository.ts:85-124 | a direct insert keeps agreement exactly if the id is taken or the mode is that of the cache and of the latest active session |
| `ApprovalMode.PhaseSessionIgnoresWorkMode` | src/orchestration/phases/DeveloperPhaseV2.ts:1355-1361 | the session a story inserts after a switch to work mode breaks agreement |
| `ApprovalMode.SwitchAnswersPending` | src/services/approval/ApprovalModeService.ts:69-72 | after a switch to an automatic mode exactly the permissions whose answer throws are pending for the task, and those of other tasks are untouched |
| `ApprovalMode.StepKeepsRecorded` | src/services/approval/ApprovalModeService.ts:128-208 | every pending permission belongs to a recorded session of its task |
| `ApprovalMode.Service.SetApprovalMode` | src/services/approval/ApprovalModeService.ts:36-73 | the new state is that of the step system |
| `ApprovalMode.Service.GetApprovalMode` | src/services/approval/ApprovalModeService.ts:78-90 | the new state is that of the step system |
| `ApprovalMode.Service.RegisterSession` | src/services/approval/ApprovalModeService.ts:95-123 | the new state is that of the step system |
| `ApprovalMode.Service.HandlePermissionRequest` | src/services/approval/ApprovalModeService.ts:128-208 | the new state is that of the step system; the request waits, under its session and its session's task, exactly if the session is recorded and in manual mode, is answered exactly in the other two modes unless that throws, and is an error otherwise; unless it waits nothing changes |
| `ApprovalMode.Service.RespondToPermission` | src/services/approval/ApprovalModeService.ts:213-260 | the new state is that of the step system |
| `ApprovalMode.Service.ProcessAllPendingPermissions` | src/services/approval/ApprovalModeService.ts:265-281 | the new state is that of the step system |
| `ApprovalMode.Service.CompleteSession` | src/services/approval/ApprovalModeService.ts:294-303 | the new state is that of the step system |
| `ApprovalMode.Service.ClearTask` | src/services/approval/ApprovalModeService.ts:321-330 | the new state is that of the step system |
| `ApprovalMode.Serve` | src/services/approval/ApprovalModeService.ts:29-330 | in a new service after any sequence of calls the cache and the sessions agree |
| `ActivityStream.NothingDropped` | src/services/realtime/ActivityStreamService.ts:91-135 | over every run without clearing, the batches sent followed by the pending activities are the activities accepted for batching, in order |
| `ActivityStream.StepPassesOn` | src/services/realtime/ActivityStreamService.ts:91-135 | each step passes on every batched activity, in order |
| `ActivityStream.AtOnceIsSent` | src/services/realtime/ActivityStreamService.ts:119-124 | over every run the messages with one activity are exactly the activities accepted to be sent at once, in order |
| `ActivityStream.UrgentIsSentAtOnce` | src/services/realtime/ActivityStreamService.ts:91-135 | the start, end and failure of phases and stories, approvals and errors are never held back and never wait |
| `ActivityStream.ChunksExact` | src/services/realtime/ActivityStreamService.ts:383-397 | the batches of a timer carry exactly what is pending, 1 to 50 each |
| `ActivityStream.ClearPassesOnIff` | src/services/realtime/ActivityStreamService.ts:286-294 | clearing drops nothing exactly if nothing is pending |
| `ActivityStream.ClearDropsPending` | src/services/realtime/ActivityStreamService.ts:286-294 | an activity that waits for its batch when the history is cleared is never sent |
| `ActivityStream.WaitingIsTimed` | src/services/realtime/ActivityStreamService.ts:377-397 | activities wait only while a timer is armed |
| `ActivityStream.NothingWaitsAfter` | src/services/realtime/ActivityStreamService.ts:299-397 | over every run a flush sends all that waits in one message, and after a flush or the timer nothing waits |
| `ActivityStream.HistoryIsLast200` | src/services/realtime/ActivityStreamService.ts:345-360 | the history is the last 200 activities accepted since it was cleared |
| `ActivityStream.ThrottledApart` | src/services/realtime/ActivityStreamService.ts:311-328 | for any clock, accepted activities of one task and high-frequency type are at least 50 ms apart |
| `ActivityStream.HeldBackIff` | src/services/realtime/ActivityStreamService.ts:311-328 | an activity is held back exactly if it is a tool call, thinking or output and comes less than 50 ms after the last accepted one of its kind |
| `ActivityStream.Service.StreamActivity` | src/services/realtime/ActivityStreamService.ts:91-135 | the new state is that of the step system |
| `ActivityStream.Service.ShouldThrottle` | src/services/realtime/ActivityStreamService.ts:311-328 | the new state is that of the step system |
| `ActivityStream.Service.AddToHistory` | src/services/realtime/ActivityStreamService.ts:345-360 | the new state is that of the step system |
| `ActivityStream.Service.FlushPending` | src/services/realtime/ActivityStreamService.ts:299-305 | the new state is that of the step system |
| `ActivityStream.Service.OnBatchTimer` | src/services/realtime/ActivityStreamService.ts:383-397 | the new state is that of the step system |
| `ActivityStream.Service.Clear` | src/services/realtime/ActivityStreamService.ts:286-294 | the new state is that of the step system |
| `ActivityStream.Serve` | src/services/realtime/ActivityStreamService.ts:91-397 | a new service after any sequence of calls is in the state of the step system |
| `JsonExtraction.ExtractBalanced` | src/orchestration/phases/ProductPlanningPhase.ts:628-645 | the block from the first open brace to where the balance first returns to zero; nothing exactly if there is no such block |
| `JsonExtraction.ExtractionIsUnique` | src/orchestration/phases/ProductPlanningPhase.ts:628-645 | that meaning determines the result |
| `JsonExtraction.RecoversEmbeddedBlock` | src/orchestration/phases/ProductPlanningPhase.ts:628-645 | text that starts with a brace after brace-free text is recovered exactly if it is one balanced block |
| `JsonExtraction.StringLiteralBracesCutTheBlock` | src/orchestration/phases/ProductPlanningPhase.ts:628-645 | a brace inside a string literal cuts the result short |
| `MergePhase.ExecuteMergePhase` | src/orchestration/phases/MergePhaseV2.ts:60-319 | for every list and failure pattern: what is created, attempted and reported; without auto-merge and the user's consent no merge is attempted; a merge is asked for only if the status was read as open and mergeable; merged means all requests merged, success at least one |
| `MergePhase.CreatePullRequests` | src/orchestration/phases/MergePhaseV2.ts:138-183 | every repository is sorted into created, skipped or error as its calls say |
| `MergePhase.EachRepositoryOnce` | src/orchestration/phases/MergePhaseV2.ts:138-183 | each repository ends in exactly one of the three |
| `MergePhase.MergeAll` | src/orchestration/phases/MergePhaseV2.ts:262-291 | each created request gets one turn, in order: its merge is asked for exactly if its status says open and mergeable, and succeeded exactly if that call did |
| `MergePhase.Flags` | src/orchestration/phases/MergePhaseV2.ts:293-295 | all and any over the attempts |
| `MergePhase.ReportedCorrectlyIff` | src/orchestration/phases/MergePhaseV2.ts:301-306 | every request is reported with its own result, whatever the merges bring, exactly if no two requests share a number |
| `MergePhase.MisreportedMerge` | src/orchestration/phases/MergePhaseV2.ts:301-306 | two requests with number 1, one merged and one not: the merged one is reported as not merged |

## Left out

- Git and the GitHub CLI: a repository is its uncommitted edits and its commits, and every git call succeeds; a call that fails is caught per repository by the source and leaves that repository as it is.
- Writes outside the moments the Developer phase awaits something: the phase is proved for runs without them, and `LateWriteKeepsIsolationIff` says what one does.
- PostgreSQL: a row is a record that is updated at once; failing and reordered writes are not modelled.
- The OpenCode SDK, prompts, language models and the parsing of their output: verdicts, issue counts, scores, story counts and events are arguments.
- Vulnerability lists, tool-call counts, summaries and all notifications to the frontend (`transformEvent` included).
- `getContext`: whether a hit is still within its time to live, and the hit and miss counters; a miss is `BuildContext` followed by `EvictIfNeeded`, and the background refresh of a hit is `RefreshContext`.
- Ignore patterns, the list of file extensions and the hash function of the context cache: parameters of `DirectoryScan.Disk`. The disk does not change during a scan.
- `cachedAt` of a cached file, and the order in which contexts of equal age are evicted beyond what a stable sort gives.
- The result of an idle wait is the log at that moment; that it is the live array, which later events extend, is not modelled.
- The two entries of a story that is reported twice are one object in the source; the model gives both its final value.
- Floating-point rounding of costs: costs are exact integers in micro-dollars.
- Sessions, tasks and permissions are numbered instead of named, except where keys are concatenated (approvals, paths).
- Phase-skip flags, task status, cancellation and the analysis approval in the orchestrator, whose test of a response object never rejects.
- HTTP routes, sockets, OAuth, encryption, specialist scoring, scaffolding, provider configuration and build-system detection.
