# DevCycle, verified

A Dafny 4.11 model of the parts of DevCycle whose correctness depends on more than one function:
the mission runtime that drives AI agents through a plan, the ledger that pays for provider requests,
the decision that a release candidate is ready, and the smaller protocols and parsers these rest on.
`dafny verify dfyconfig.toml` checks everything. Nothing here runs the original program.

## How it is laid out

* `Graph`, `DependencySearch` - dependency graphs, the depth-first cycle check and the memoised reachability search.
* `Team`, `Scheduler` - missions, plans, validation, which work is ready, and routing to models.
* `MissionSteps` - every successful save of a mission as one step, with the answers of agents, Git, the clock and
  the stores as data carried by the step. `MissionInvariant`, `MissionHistory`, `MissionOrder`, `MissionOutcome`,
  `MissionRepair` and `MissionProgress` prove what all runs of these steps have in common; `MissionGate`,
  `MissionFinish` and `MissionVerdict` say exactly when a step starts, judges, repairs, escalates or completes, in
  terms of recorded fields and observed answers alone.
* `MissionRuntime`, `MissionDispatch`, `MissionStore`, `MissionService` - the same calls as they execute: local
  copies changed field by field, loops, and compare-and-swap saves against a row other callers save as well. A call
  that reports success is proved to have made exactly the steps above.
* `MissionWorld`, `MissionItems` - a mission among the tables its calls write besides it, every write an event of its
  own so that a crash may fall between any two, and what that does to its work items.
* `Evidence`, `Readiness` - which machine proofs count, when a candidate is ready, and exactly when a completed
  mission's is.
* `MissionScript`, `MissionStory`, `MissionExample` - stretches of runs and how they are put together, and four whole
  runs: one that ends ready, one for each window a crash can fall into, and one that ends with an untested repair.
* `Billing`, `Ledger` - the two ledger tables as a replay of transactions, then as a class in 64-bit arithmetic.
* `WorkItems`, `WorkItemStore` - the work-item graph under all its writers, then as a class.
* `LogWriter`, `AgentResponse` - bounded and redacting writers over arrays and files, and the capture protocol.
* `Providers`, `ProviderService` - provider setup, slow connection tests, and pinned dispatch.
* `GitDiff`, `JsonScan`, `Decimals`, `Sequences` - the two parsers and what they share.

Calls are proved against step and table functions; the lemmas named `...Exactly` then say what those functions decide
without them, as if-and-only-ifs over recorded fields, observed answers, positions or paths, for every input.

Three kinds of outside behaviour are parameters everywhere: what Git, agents and disks answer; redaction, digests
(injective where stated), path normalisation and decoding, as functions; and what concurrent callers do meanwhile,
as steps or transactions of their own. Where a promise fails, the input and the exact condition are proved: a mission
can complete with a repair nobody tested (`MissionExample`), and a repair over finished work runs first exactly on
plans that order their leads (`MissionRepair`); a completed mission's candidate is ready exactly when no crash fell
into one of two windows (`Readiness`); candidates have an order exactly when no unknown cost lies between the ids of
two known ones the wrong way round (`Scheduler`); and two edits accepted on one table leave it sound exactly unless
they close a circle or undercut each other, while a row written back after others wrote is harmless exactly when it
neither leads back to itself nor leaves finished work on open work (`WorkItems`).

Where comments in the code and the code itself differ, the code is followed: a repair cycle restarts QA and review
without consulting their attempt limit, so their limit grows by one per cycle; and linking a worktree starts an item
whose prerequisites are open, so only finished work is claimed to rest on finished work.

## Model

| member | source | states |
|---|---|---|
| DependencySearch.CycleCheck.Visit | internal/team/model.go:185-210 | from a clean state the search reports a cycle or unknown dependency only when one exists, and otherwise settles everything it reached |
| DependencySearch.Check | internal/team/model.go:183-215 | clean exactly when the graph has no cycle and, if strict, no unknown dependency, in whatever order the ids are visited |
| DependencySearch.HasCycle | internal/app/release.go:156-182 | true exactly when some item depends on itself, directly or not |
| DependencySearch.AncestorMemo.Ancestor | internal/team/model.go:216-230 | on an accepted graph the memoised search answers exactly transitive reachability, although it marks pairs before searching them |
| Team.ValidatePlan | internal/team/model.go:150-241 | accepts exactly the plans with well-formed tasks, unique ids, known dependencies, no cycle, QA after implementation, review after QA, and the roles the risk needs |
| Team.CheckOrder | internal/team/model.go:231-238 | one memo shared by all pairs still decides every ordering rule correctly |
| Team.ValidPlanExactly | internal/team/model.go:150-241 | a plan is valid exactly when it has one to a hundred well-formed tasks with different names, its dependencies name tasks, no chain of dependencies returns, QA waits for every implementation and review for every QA task, and the roles the risk needs are there |
| Scheduler.FindReady | internal/team/model.go:299-323 | lists exactly the waiting tasks whose dependencies are all completed, in plan order, and relabels all waiting ones |
| Scheduler.Route | internal/team/model.go:256-297 | refuses exactly on an exhausted or strict budget or without an eligible model; otherwise returns the eligible models, all of them, best tier and evaluation first |
| Scheduler.SortedContents | internal/team/model.go:280-292 | ordering candidates neither loses nor invents one |
| Scheduler.SortedRanked | internal/team/model.go:280-292 | the result is ordered by tier, then evaluation, for every mix of costs |
| Scheduler.SortedInOrder | internal/team/model.go:280-292 | without a circle of known and unknown costs in one group, no candidate precedes an earlier one in the full comparison |
| Scheduler.OrderedIsCircleFree | internal/team/model.go:280-292 | with such a circle no arrangement of the candidates at all is in order |
| Scheduler.InOrderExactly | internal/team/model.go:245-292 | as ids are unique, the sort puts the candidates in the comparator's order exactly when there is no circle |
| Scheduler.InOrderMeans | internal/team/model.go:280-292 | in order means tier, then evaluation, then the cheaper of two known costs, then identifiers that do not run backwards |
| Scheduler.IdBeforeExactly | internal/team/model.go:291 | identifiers compare at their first difference, or by length |
| Scheduler.MixedCostsHaveNoOrder | internal/team/model.go:280-292 | three models that form a circle |
| MissionDispatch.Choose | internal/app/team.go:243-274 | picks the best ranked model that may run the task; a review never goes to an implementer's model while an independent one is eligible, nor ever when policy forbids it |
| MissionDispatch.KeepIndependent | internal/app/team.go:249-266 | keeps exactly the candidates no implementation execution used, in rank order |
| MissionDispatch.Rescore | internal/app/team.go:217-237 | history replaces evaluations and nothing else about a model |
| MissionDispatch.Claim | internal/app/team.go:274-284 | one attempt more, running, with no trace of an earlier attempt's location; one execution appended, running and without verdict, for the chosen model; every other task, execution and field untouched |
| MissionDispatch.ClaimIsNew | internal/app/team.go:274-287 | in every reachable mission a claim opens an attempt no earlier execution of the task had, on a task without a location, while nothing else runs |
| MissionGate.EligibleExactly | internal/team/model.go:263-279 | a model is eligible exactly when it is reachable, allowed, has tools, tier, context, capabilities and enforcement, and is cut off where the source must not leave |
| MissionGate.MayRunExactly | internal/app/team.go:243-266 | a review may go to an author's model only without a policy against it and with nobody else suitable |
| MissionGate.StartableExactly | internal/team/model.go:299-323 | a task is ready exactly when it waits and every dependency names a completed task |
| MissionGate.ReschedulesExactly | internal/team/model.go:299-323 | rescheduling labels the waiting tasks ready or blocked and leaves everything else of a task alone |
| MissionGate.RefusesExactly | internal/app/team.go:267-273 | without a model the task and mission escalate under an execution without model, evidence or verdict |
| MissionGate.PlacesExactly | internal/app/team.go:301-310 | an attempt's worktree and branch are named by the mission's places, the task, eight characters of its work item and the attempt |
| MissionGate.DispatchesExactly | internal/app/team.go:190-284 | everything a dispatch needs, field by field: an open mission below the human gate, nothing running, the first startable task, budget left, a suitable model, and where the policy asks for it no author as reviewer |
| MissionGate.EscalatesExactly | internal/app/team.go:193-197 | the gate escalates exactly at risk four, or at three without both kinds of checks, and changes nothing else |
| MissionGate.NothingPassesTheGate | internal/app/team.go:193-207 | while only a human may let it through, no work starts, is refused or is concluded |
| MissionGate.ReviewsAreIndependent | internal/app/team.go:248-266 | where the policy asks for it, no version of any run shows a review by the model of a lead or frontend execution before it |
| MissionGate.RetriesExactly | internal/app/team.go:759-787 | a human's retry is possible exactly below risk three on an escalated mission with an escalated task that has attempts left, and restarts exactly those |
| MissionRuntime.CheckWorktree | internal/app/team.go:448-508 | fails exactly when the commit or the branch did not hold, and finds the risk and head that were observed |
| MissionRuntime.RunChecks | internal/app/team.go:509-524 | stops at the first failing check and keeps the evidence of exactly those that ran |
| MissionRuntime.Judge | internal/app/team.go:450-562 | verdicts, evidence and error of an execution are the specified outcome |
| MissionRuntime.StartRepair | internal/app/team.go:576-607 | restarts the first lead with an attempt left and every QA and review task, or changes nothing |
| MissionRuntime.FinishLocally | internal/app/team.go:553-607 | everything a finished execution does to the local mission, repair cycle included |
| MissionFinish.FinishesExactly | internal/app/team.go:448-563 | a task completes exactly when the agent ended without error, the commit was off or of writable files at low risk, the branch was listed, clean, writable, on its branch, not newly risky and for readers unmoved, QA's checks all passed without touching the source, the review was clean and the proof was stored; risk and verdicts follow from the same answers |
| MissionFinish.EvidenceRecorded | internal/app/team.go:509-562 | an execution keeps its evidence and gains the stored proof and, in a successful QA, that of every check |
| MissionFinish.ChecksExactly | internal/app/team.go:509-524 | of failing checks too, the evidence kept is that of each check up to and including the first that failed, and nothing else |
| MissionFinish.SuccessRecorded | internal/app/team.go:542-615 | a success records the head Git reported, completes the task and touches no other |
| MissionFinish.FailureRecorded | internal/app/team.go:563-607 | a failure retries while attempts are left and escalates otherwise, except that review findings below the fix limit and risk four restart the first lead with an attempt and all QA and review tasks |
| MissionFinish.RecoversExactly | internal/app/team.go:729-757 | recovery fails the interrupted execution without a verdict, escalates its task and mission and changes nothing else |
| MissionRuntime.MissionSource | internal/app/team.go:385-412 | a usable source is the last completed execution's worktree at its recorded head; a moved head is refused |
| MissionRuntime.ReviewPassed | internal/app/team.go:627-654 | passes exactly when a verdict was given, every verdict is clean and none is garbled |
| MissionRuntime.Tally | internal/app/team.go:688-704 | counts tests, reviews and missing evidence over the latest executions in any map order |
| MissionRuntime.WeighVerdicts | internal/app/team.go:688-706 | the latest executions suffice exactly when QA passed, review passed if any risk, and two reviews at risk three |
| MissionRuntime.Decide | internal/app/team.go:656-725 | the concluding decision equals its specification |
| MissionVerdict.VerdictsExactly | internal/app/team.go:688-707 | the tallied verdicts suffice exactly when some task's last execution passed its tests, at any risk some task's passed review, and at risk three two different tasks' did |
| MissionVerdict.ConcludesExactly | internal/app/team.go:656-725 | exactly when a conclusion saves a completed mission, exactly when an escalated one, and that it changes nothing but risk and state |
| MissionVerdict.CompletedIsJudged | internal/app/team.go:190-206 | in every run a completed mission has all tasks done, last executions that passed tests and as many reviews as its risk needs, and no risk that a human had to let through |
| MissionStore.Missions.Get | internal/team/store.go:104-113 | reads the stored version with its revision |
| MissionStore.Missions.Save | internal/team/store.go:79-103 | succeeds exactly when nobody saved since the copy's revision, then extends the run by exactly that step; otherwise nothing changes |
| MissionStore.RunTiers | internal/team/model.go:242-252 | the tier bound checked at creation holds in every saved version |
| MissionService.AdvanceMission | internal/app/team.go:163-287 | whatever others save meanwhile, a call that gets everything saved made exactly one advance of the version it read, at most one execution; a finished mission is left alone; an untroubled call on any other always gets everything saved |
| MissionService.AdvanceToEnd | internal/app/team.go:160-162 | untroubled advances, repeated as callers do, reach completed or escalated within the remaining executions plus one call |
| MissionService.StartTask | internal/app/team.go:200-287 | the first ready task is dispatched on a permitted model or escalated; an untroubled call gets there |
| MissionService.RunClaimedTask | internal/app/team.go:288-378 | on every way out, a claimed task is prepared, attached and finished in that order; an untroubled call gets to the end |
| MissionService.FinishMissionTask | internal/app/team.go:438-625 | a reported finish is exactly the finish step of the version the copy came from and leaves nothing running; an untroubled call reports it |
| MissionService.CompleteMission | internal/app/team.go:656-725 | a reported conclusion is exactly the conclude step; an untroubled call always concludes |
| MissionService.ReconcileMission | internal/app/team.go:729-757 | an interrupted execution is failed and then escalated, never replayed; only a live session is left alone, and an untroubled recovery completes |
| MissionService.RetryMissionCall | internal/app/team.go:759-787 | retries exactly the escalated missions below risk three with attempts left, restarting exactly those tasks; a call that reports success saved exactly that, a call that reports a loss saved nothing of its own, and a retry is lost exactly to a failed write or to a caller who saved first |
| MissionInvariant.CreatedInv | internal/app/team.go:83-145 | a created mission satisfies the invariant |
| MissionInvariant.NextInv | internal/app/team.go:163-787 | every save keeps it: one running execution matching one running task, evidence and verdicts behind every completed task, attempt bounds, locations, dependency order |
| MissionInvariant.RunInv | internal/app/team.go:163-787 | every persisted version of every run satisfies the invariant |
| MissionHistory.StepExtends | internal/app/team.go:274-284 | no save rewrites a finished execution, lowers risk or fix cycles, or changes a plan's shape |
| MissionHistory.RunPreserves | internal/app/team.go:163-787 | the same between any two versions of a run |
| MissionHistory.CompletedIsFinal | internal/app/team.go:187-189 | no step of any caller is possible on a completed mission |
| MissionHistory.CompletedEndsRun | internal/team/store.go:79-103 | a completed version is the last of its run, however many callers compete |
| MissionHistory.Bounded | internal/app/team.go:576-607 | dispatches stay within the execution budget, fix cycles within theirs, no task runs more than three times, and only QA and review may exceed their limit, by one per fix cycle |
| MissionHistory.OwnedIdInjective | internal/app/team.go:303-305 | the id-work item-attempt name determines task and attempt even when ids contain dashes and digits |
| MissionHistory.NoSharedLocation | internal/app/team.go:275-306 | over a whole run no two dispatches of a mission, running or over, ever had the same worktree or the same branch |
| MissionHistory.LocationInjective | internal/app/team.go:303-305 | equal worktree or branch means equal task and attempt |
| MissionOrder.DispatchFollows | internal/team/model.go:299-323 | on ordered plans a QA or review task is dispatched only when everything it must follow is completed |
| MissionOrder.NextOrder | internal/app/team.go:385-412 | every save keeps the order invariant: completed verification is later than the work it covers, and read-only work reports the source's head |
| MissionOrder.RunOrder | internal/app/team.go:163-787 | the order invariant holds in every version of a run of an ordered plan |
| MissionOutcome.SimplePlanIsValid | internal/team/model.go:405-419 | every simple plan, with or without a frontend step or second review, validates, starts fresh and is ordered |
| MissionOutcome.HeadCarried | internal/app/team.go:489-494 | when only read-only executions completed after one, the accumulated source is still its head |
| MissionOutcome.CompletionRecord | internal/app/team.go:608-612 | a completed task's last execution completed it, with evidence and the verdict its role needs |
| MissionOutcome.CompletedIsTested | internal/app/team.go:656-725 | in a completed run of an ordered plan the last QA passed after all implementation, every review after all QA, and every artifact is contained in the head QA checked |
| MissionRepair.RepairRunsNext | internal/app/team.go:576-607 | whatever else is unfinished, after a repair the lead is dispatched next exactly when nothing it names is unfinished or restarted and every waiting task listed before it names something that is |
| MissionRepair.RepairRunsNextByPlan | internal/app/team.go:576-607 | over finished work that depends on the plan alone: every QA or review task listed before the lead must directly name it or another restarted task |
| MissionRepair.OrderedLeadsExactly | internal/app/team.go:576-607 | so a repair over finished work runs before it is verified exactly on plans that order the lead before QA and review |
| MissionRepair.OvertakingValid | internal/team/model.go:150-241 | a plan that passes validation but is not ordered |
| MissionRepair.VerificationOvertakesRepair | internal/app/team.go:589-596 | in every mission on that plan a repair over finished work is overtaken by QA |
| MissionExample.UntestedRepairCompletes | internal/app/team.go:576-607 | an honest run on that plan that completes although its last lead execution follows the last QA execution |
| MissionProgress.NothingReadyMeansDone | internal/team/model.go:299-323 | an idle mission that is not over has nothing ready exactly when all its tasks are done |
| MissionProgress.ConclusionDecides | internal/app/team.go:656-725 | with all tasks done, a concluding call that gets its answers always decides |
| MissionProgress.EvidenceNeverLacks | internal/app/team.go:698-700 | the error for a completed execution without evidence cannot occur |
| MissionProgress.AdvanceProgress | internal/app/team.go:163-287 | every advance ends the mission or uses up one of its executions |
| MissionProgress.AdvancesEnd | internal/app/team.go:160-162 | no chain of advances is longer than the remaining executions plus one |
| Evidence.Select | internal/app/verification_source.go:98-123 | one pass in listing order keeps exactly the deciding proof of every check, or refuses exactly on an unattributable proof or two commands for one check |
| Evidence.CheckDeciders | internal/app/verification_source.go:124-141 | in any map order, accepts exactly when every deciding proof passed, is pinned to its run, and matches a current clean source |
| Evidence.IsCovered | internal/app/verification_source.go:146-162 | a source is covered exactly when its head equals or precedes a verified head of its repository |
| Evidence.CurrentMachineEvidence | internal/app/verification_source.go:90-167 | true exactly when nothing runs, all proofs can be attributed with one command per check, every check's deciding proof is good, one exists, and every source is covered |
| Evidence.SomeDecides | internal/app/verification_source.go:106-121 | every check with a proof has a deciding one |
| Evidence.SupersededIsIrrelevant | internal/app/verification_source.go:106-121 | a proof beaten by another of its check, or a later listed legacy proof, cannot change the answer wherever it is inserted |
| Evidence.ExportReadiness | internal/app/release.go:207-273 | ready exactly when every criterion is satisfied and newly proven, every item done, every source clean, and machine evidence current where required |
| Evidence.ScopeExactly | internal/app/verification_source.go:68-80 | which proofs belong to a plan check, which to a bare command and which to nothing |
| Evidence.SameCheckExactly | internal/app/verification_source.go:68-80 | proofs are of one check when they name the same command, place and item, or the same plan check and item |
| Evidence.DecidesExactly | internal/app/verification_source.go:103-127 | a plan check is decided by the later attempt, then the later time, then the failure, then the first listed; a bare command by the first listed |
| Evidence.CurrentExactly | internal/app/verification_source.go:90-167 | evidence is current exactly when all runs are over, some proofs are attributed consistently, every deciding proof passed with its run at one clean commit that is still a clean source's, and every source is part of a commit so verified |
| Evidence.FailureCounts | internal/app/verification_source.go:128-132 | a deciding proof that failed, or whose run failed, makes the evidence stale and the candidate not ready |
| Evidence.ReadyExactly | internal/app/release.go:207-288 | a candidate is ready exactly when there are criteria, each satisfied and newly proven, all items are done, all sources clean, and machine evidence current whenever there are runs or the team made it |
| MissionWorld.RunOf | internal/app/team.go:163-787 | the saves among a world's events are an honest run of its mission |
| MissionItems.EventItems | internal/app/team.go:289-320 | every event keeps: each recorded item exists and belongs to one task, a placed or completed task's item is linked to its worktree, only recorded items are finished, and a finished task's open item belongs to work the next repair restarts |
| MissionItems.AllNamedExactly | internal/app/team.go:294-316 | no creation of an item went unsaved exactly when every item belongs to a plan task |
| MissionItems.AllDoneExactly | internal/app/team.go:576-613 | in a completed mission every item is done exactly when no creation went unsaved and no reset of finished work was left without a repair being saved after it |
| Readiness.WorldSound | internal/app/team.go:509-528 | in every run the last attempt of a completed QA task recorded every configured check as passed at its artifact, and a completed mission has proven and satisfied every criterion |
| Readiness.DeciderIsLast | internal/app/verification_source.go:60-80 | a deciding proof of a completed mission comes from the last attempt of its QA task |
| Readiness.CompletedIsReady | internal/app/release.go:207-288 | for a completed run of an ordered plan whose worktrees nobody edited, the candidate is ready exactly when no creation of an item went unsaved and no reset of finished work was left without a repair being saved after it |
| Readiness.SomeExport | internal/app/release.go:207-288 | every world a run leads to has an export as the readiness theorem describes it |
| MissionExample.ReadyRun | internal/app/team.go:656-725 | a run whose completed mission has a ready candidate, meeting every condition of the readiness theorem |
| MissionExample.LostCreation | internal/app/team.go:294-316 | a crash between creating an item and saving its id: the mission is retried and completes, and its candidate is not ready |
| MissionExample.LostRepair | internal/app/team.go:586-620 | a crash between resetting an item and saving the repair: the mission is retried and completes, and its candidate is not ready |
| MissionExample.SomeRunCompletes | internal/app/team.go:163-287 | some run of an ordered plan, with honest heads, completes, so the theorems about such runs are not empty |
| Billing.PriceRoundsUp | internal/team/product_store.go:71 | a price is the exact cost rounded up to a micro |
| Billing.WithinBoundCostsNoMore | internal/team/product_store.go:97-104 | usage within its bounds never costs more than was reserved |
| Billing.BooksBalance | internal/team/product_store.go:52-151 | after any interleaving of saves, reservations, settlements, resumptions and restarts, each charge is the true cost of validly settled reservations plus the full amount of all others, and calls count reservations |
| Billing.UnblocksExactly | internal/team/product_store.go:138-151 | a provider unblocks exactly by a resumption with nothing in flight |
| Billing.BlocksExactly | internal/team/product_store.go:119-121 | it blocks exactly by settling an open reservation on bad usage or by a restart with one in flight |
| Billing.BlockedSpendsNothing | internal/team/product_store.go:78-85 | between a block and the next resumption no call is admitted and the charge can only shrink |
| Billing.SpendBounded | internal/team/product_store.go:52-62 | the charge never exceeds some limit that was saved, however limits changed since, and is never negative |
| Billing.PricedInForce | internal/team/product_store.go:71-88 | an admitted reservation is new, at least one micro, and priced at the tariff in force when it commits |
| Billing.ActualWasReported | internal/team/product_store.go:94-105 | every recorded true cost is the price of usage some settlement reported, at the reserved tariff |
| Billing.ClosedStays | internal/team/product_store.go:111-118 | no transaction reopens a settled or written off reservation |
| Billing.SettlesOnce | internal/team/product_store.go:111-118 | in every run, once a settlement found its reservation no later settlement of it changes anything, whatever happens in between |
| Billing.CallsBounded | internal/team/product_store.go:73-82 | in every run a provider made no more calls than some number of calls that was saved for it |
| Billing.ReservesExactly | internal/team/product_store.go:73-90 | the guard of a reservation field by field, and its effect on both tables |
| Billing.SettlesExactly | internal/team/product_store.go:91-135 | known usage within both bounds is charged at its price rounded up; anything else keeps the charge and blocks |
| Billing.SavesExactly | internal/team/product_store.go:52-61 | which terms may be saved, and that saving never touches counters, the flag or another budget |
| Billing.ResumesExactly | internal/team/product_store.go:138-151 | a resumption clears the flag of exactly a blocked provider with no open row, and nothing else |
| Billing.ReopensExactly | internal/team/store.go:66-70 | a restart writes off exactly the open rows, blocks their providers and moves nothing else |
| Billing.ReopenWritesOff | internal/team/store.go:66-70 | a restart leaves nothing open, blocks exactly the affected providers and refunds nothing |
| Ledger.Amount | internal/team/product_store.go:71 | the 64-bit price computation never overflows and equals the price |
| Ledger.Store.ReadQuote | internal/team/product_store.go:63-72 | a quote is offered exactly within the token bounds, at the price of the tariff read |
| Ledger.Store.CommitReservation | internal/team/product_store.go:73-90 | succeeds exactly when the budget as it is now is unblocked, has a call and the amount left, and still has the quoted tariff and output bound; otherwise neither table changes |
| Ledger.Store.SettleReservation | internal/team/product_store.go:91-135 | refunds exactly on known usage within bounds, else keeps the charge and blocks; the fallback for a cost above the reservation is never reached |
| Ledger.Store.ResumeProvider | internal/team/product_store.go:138-151 | succeeds exactly when blocked with nothing open |
| Ledger.Store.TakeOver | internal/team/store.go:66-70 | opening the store performs the write-off transaction |
| Ledger.Generate | internal/ai/provider.go:166-269 | the budget is read once for the output bound and again for the tariff, with setup changes in between; a request goes out exactly when that bound can be priced at that tariff and the budget at the commit admits it, under exactly that reservation; every way out after that settles it; text is returned only, and whenever usage fits, after a settlement that charged exactly the reported usage |
| Ledger.GoesOutExactly | internal/ai/provider.go:184-232 | when a request goes out, over the budgets at its two reads and at the commit, field by field |
| WorkItems.DoneAllTheWay | internal/app/release.go:123-140 | everything a finished item depends on, directly or not, exists and is finished |
| WorkItems.UpdateKeepsAcyclic | internal/app/release.go:116-122 | the per-requirement cycle check keeps the whole graph acyclic |
| WorkItems.PlantingKeeps | internal/app/ai.go:170-186 | an applied plan adds exactly its tasks on a sound graph, or nothing |
| WorkItems.StepKeeps | internal/store/store.go:574-640 | every call of every writer, made with nobody writing meanwhile, keeps the graph local, acyclic and closed under finished prerequisites |
| WorkItems.AlwaysSound | internal/app/release.go:78-154 | the same after any sequence of such calls |
| WorkItems.RacingEditsSound | internal/app/release.go:104-153 | two edits accepted on one table and both written leave the graph sound exactly unless they close a circle or one undercuts the other |
| WorkItems.RacingEditsCycle | internal/app/release.go:104-153 | they close a cycle exactly when each edit's dependencies lead to the other item over edges neither touches |
| WorkItems.RacingEditsDone | internal/app/release.go:104-153 | finished work keeps resting on finished work exactly unless one finishes an item that names the item the other leaves open |
| WorkItems.RacingEditsFormCycle | internal/app/release.go:104-153 | two such edits that close a cycle |
| WorkItems.RacingEditsUndercut | internal/app/release.go:104-153 | two such edits that leave a finished item on an open one |
| WorkItems.StaleWriteSound | internal/store/store.go:574-620 | a row read earlier and written back whole, whatever others wrote since, leaves the graph sound exactly when it is refused, or its dependencies neither lead back to the item by now nor cross requirements and it leaves no finished work on open work |
| WorkItems.StaleLinkFormsCycle | internal/store/store.go:608-620 | a link that read an edge writes it back after two edits turned it around: a cycle |
| WorkItems.FreshLink | internal/store/store.go:608-620 | with nothing written in between, writing the linked row back is accepted and is the atomic step |
| WorkItems.EditsExactly | internal/app/release.go:78-147 | an edit of a sound table is accepted exactly when its dependencies are other items of the requirement that do not wait for the item, prerequisites are finished to start or finish it, nothing started rests on it to reopen it, and its sessions are stopped to finish it |
| WorkItems.CyclesExactly | internal/app/release.go:156-182 | the cycle check refuses exactly the dependencies that already wait for the item, directly or not |
| WorkItems.NormalizedExactly | internal/app/release.go:104-121 | blanks and repetitions are dropped and the first mentions keep their order |
| WorkItems.EditWrites | internal/store/store.go:574-605 | an accepted edit writes title, status and the named dependencies and touches no other item |
| WorkItems.WritesExactly | internal/store/store.go:574-605 | a row is written back whole, or refused exactly when the item or a dependency is missing or it names itself |
| WorkItems.OthersExactly | internal/store/store.go:531-640 | what creating, linking and deleting do to one item and leave of the others |
| WorkItems.PlantsExactly | internal/app/ai.go:142-189 | a plan is applied exactly when every title and id is new and every dependency names a known title, and each task then depends on exactly the items its titles name |
| WorkItems.TitleIdsExactly | internal/app/ai.go:166-169 | a title stands for the last listed item that bears it |
| WorkItemStore.Table.CreateTask | internal/store/store.go:531-549 | adds a fresh waiting item without dependencies and keeps the graph sound |
| WorkItemStore.Table.CheckEdit | internal/app/release.go:104-147 | accepts exactly the permitted edits |
| WorkItemStore.Table.UpdateTask | internal/app/release.go:78-154 | writes the edit exactly when permitted and keeps the graph sound |
| WorkItemStore.Table.LinkTaskGit | internal/store/store.go:608-620 | with nobody writing between its read and its write, starts a waiting item without consulting prerequisites and keeps the graph sound |
| WorkItemStore.Table.WriteTask | internal/store/store.go:574-605 | writes exactly the given row, dependencies included, or nothing when an item or dependency is missing or names itself; the graph stays sound exactly when the row is harmless |
| WorkItemStore.Table.DeleteTask | internal/store/store.go:622-640 | removes the item and the edges from and to it |
| WorkItemStore.Table.ValidatePlan | internal/app/ai.go:237-269 | accepts exactly when every title is new and every dependency names an existing or earlier title |
| WorkItemStore.Table.ApplyPlanningDocument | internal/app/ai.go:142-189 | titles resolve to the right ids and the transaction applies all of the plan or none |
| WorkItemStore.Table.InsertAll | internal/store/planning.go:58-89 | a conflict or stale revision rolls every inserted row back |
| LogWriter.TailBuffer.Write | internal/app/log_writer.go:38-56 | after any writes the buffer holds exactly the last bytes of everything written, and the truncation flag is exact up to single writes that fill the buffer |
| LogWriter.TailBuffer.ShiftDown | internal/app/log_writer.go:47-52 | the overlapping move keeps the newest bytes in order |
| LogWriter.AppendKeeps | internal/app/log_writer.go:147-230 | the file is everything written unless truncated, is truncated for non-empty writes exactly when more than the maximum was written, and ends with the newest output; it exceeds its maximum exactly when a write did not learn the file's size after a cut and overflowed |
| LogWriter.AppendFits | internal/app/log_writer.go:180-230 | a write that learns the size leaves the file within its maximum; one that does not exceeds it exactly when file and data overflowed before and the cut file and data still do, and by less than another maximum |
| LogWriter.CutEnds | internal/app/log_writer.go:180-209 | a cut file still ends with the newest window after more is written |
| LogWriter.CutExactly | internal/app/log_writer.go:180-209 | a cut file is its newest half after the marker, or without it where it does not fit |
| LogWriter.BoundedLog.Write | internal/app/log_writer.go:147-230 | the file operations produce exactly the specified contents and size; a failing second size query is swallowed and the full maximum taken as the room left; any other failing operation is reported and leaves the log marked faulty |
| LogWriter.SplitAppend | internal/app/log_writer.go:88-99 | splitting a stream into lines does not depend on where it was cut |
| LogWriter.LinesExactly | internal/app/log_writer.go:88-99 | splitting loses nothing, and every line ends with its only line break |
| LogWriter.LinesShown | internal/app/log_writer.go:110-126 | the log receives, in order and one each, exactly the lines outside every private key, as their redaction or as the notice where a key begins |
| LogWriter.KeyIsNoticed | internal/app/log_writer.go:110-126 | a private key leaves exactly one notice, whether it ends or not |
| LogWriter.RedactingLog.WriteRedactedLine | internal/app/log_writer.go:110-126 | one line advances the private-key state and the output exactly as specified |
| LogWriter.RedactingLog.Write | internal/app/log_writer.go:81-108 | the log tracks the redaction of the complete lines so far, however the stream arrives |
| LogWriter.RedactingLog.Close | internal/app/log_writer.go:128-145 | an intact log received exactly the redaction of the whole stream |
| AgentResponse.LinesSpeak | internal/app/log_writer.go:110-126 | when redaction never silences a line, every write carries something |
| AgentResponse.Capture.Write | internal/app/agent_response.go:41-61 | everything counts as received, only what fits is passed on |
| AgentResponse.Capture.Close | internal/app/agent_response.go:63-91 | a file marked complete and not truncated is the redaction of everything received |
| AgentResponse.AgentSessionResponse | internal/app/agent_response.go:93-127 | returns exactly a complete, untruncated, bounded file that is the one marked |
| AgentResponse.CaptureSession | internal/app/agent_response.go:33-127 | however output is cut and whatever fails, a returned response is the redaction of all of it; with a disk on which no reported operation fails one is returned exactly when output and redaction fit |
| Providers.NextKeeps | internal/app/product.go:246-322 | every setup change and every test keeps verifications backed by a passed test with no completed change since it began |
| Providers.AlwaysInv | internal/app/ai_providers.go:37-138 | the same in every interleaving |
| Providers.ReadyWasTested | internal/app/product.go:161-215 | a provider shown ready passed a test of exactly its present model, roles and configuration, with no completed change since and its configuration last saved before, away-and-back included |
| Providers.LateResultIgnored | internal/app/product.go:271-279 | in every interleaving, a result that arrives after any setup change since its test began changes neither setup nor the record of passed tests |
| Providers.EndsExactly | internal/app/product.go:270-303 | a result is applied exactly when it is stored, nothing was set up since and the subject digests to the same, and then to that entry alone |
| Providers.FailureUnverifies | internal/app/product.go:270-303 | a failed test takes readiness away, whatever was verified before |
| Providers.ChangesUnverify | internal/app/product.go:526-544 | a completed change or resumption clears the verdicts of its provider and of no other |
| Providers.ShownExactly | internal/app/product.go:161-244 | what being shown ready needs, as far as verification goes |
| Providers.RegistersExactly | internal/app/product.go:70-154 | registering replaces the provider's entries in place or adds one, revoking drops them, and all others stay |
| Providers.ValidatePinnedDispatch | internal/app/product_dispatch.go:15-46 | permits exactly when some approved binding still matches a registered entry for the configuration at hand |
| Providers.PermitsExactly | internal/app/product_dispatch.go:15-46 | one binding permits a dispatch exactly when it is for the transport, model and role and an unfailed entry of its provider still carries its verification for the configuration at hand |
| Providers.DispatchedAsApproved | internal/app/product_dispatch.go:36-43 | a guided mission dispatches only on the configuration approved at its creation, which passed its test |
| ProviderService.Product.Configure | internal/app/ai_providers.go:45-138 | only a save that runs to its end clears the verifications |
| ProviderService.Product.RegisterProduct | internal/app/product.go:70-154 | configuration first, then the unverified entry in place of any other of its provider |
| ProviderService.Product.RevokeProduct | internal/app/product.go:323-344 | removes every entry of the provider |
| ProviderService.Product.FinishProbe | internal/app/product.go:268-302 | applies a result exactly when nothing was set up since its snapshot and the same subject is configured |
| GitDiff.TokensReadBack | internal/git/diff.go:225-234 | terminated tokens are read back exactly, empty ones included |
| GitDiff.DiffReadsBack | internal/git/diff.go:158-223 | any list of changes with distinct paths is read back exactly from what Git writes for it, renames, binaries, tabs and spaces included |
| GitDiff.ParseStructuredDiff | internal/git/diff.go:158-190 | the parser computes the specified reading and so inverts what Git writes |
| GitDiff.ParseNumbers | internal/git/diff.go:192-223 | the statistics parser computes the specified map, malformed input included |
| GitDiff.NamesExactly | internal/git/diff.go:158-190 | name tokens are read as exactly the changes whose printed names they are, and refused when there are none |
| GitDiff.NumbersExactly | internal/git/diff.go:192-223 | statistic tokens are accepted exactly when they are lines of two counts or a binary mark with a path or a move's two paths, and then recorded by path, the last line counting |
| GitDiff.Total | internal/git/diff.go:115-127 | totals equal the sums over all files |
| GitDiff.WithUntracked | internal/git/diff.go:102-114 | the untracked paths follow the parsed changes, in order |
| GitDiff.Complete | internal/git/diff.go:98-127 | the whole answer: all parsed changes, then all untracked paths, and totals in which the latter count only as themselves |
| GitDiff.UntrackedAddNothing | internal/git/diff.go:102-127 | untracked files raise no count but their own |
| Decimals.AtoiOfDecimal | internal/git/diff.go:203-210 | a printed 64-bit number is read back |
| JsonScan.EndIsFirstBalance | internal/ai/service.go:321-350 | the scan from a brace ends at the first position where braces outside strings balance, and fails exactly when there is none |
| JsonScan.ObjectIsCandidate | internal/ai/service.go:321-350 | an object embedded in any noise is the candidate at its opening brace, whatever its strings and escapes hold |
| JsonScan.FindEnd | internal/ai/service.go:325-353 | the scanning loop computes that end |
| JsonScan.ExtractJSONObject | internal/ai/service.go:315-360 | the whole trimmed text when it decodes, otherwise the longest decodable candidate, earliest on ties, and a failure exactly when there is none |
| JsonScan.EmbeddedIsFound | internal/ai/service.go:315-360 | when a decodable object is embedded anywhere, extraction succeeds with at least as much text |

## Left out

- Risk assessment, path permissions and prompt text: their results are inputs (the assessed risk, whether paths are writable, the prompt's size); they are textual scans of one body each.
- Defaults for missions stored by older binaries (empty worktree root or branch prefix) and the in-process guard against two advances of one mission: the model lets any number of callers compete instead.
- Handoffs between sessions, session logs and durations: one error path of the dispatch, kept as the answer `handedOff`; nothing later reads them.
- Success rates from other missions: `MissionDispatch.Rescore` takes the rates as given.
- Mission fields without control flow (goal, acceptance, memory, timestamps) and the registry checks of `Validate` other than the tier bound.
- The stable library sort is modelled as the insertion that defines it.
- Path cleaning when a worktree path is joined: paths are joined with a slash.
- MissionHistory.NoSharedLocation: an attempt that never got a location has none to share.
- Readiness.CompletedIsReady: assumes inspection of the worktrees succeeds, all worktrees belong to one repository, no verification is running, and nobody but the mission's own calls writes its items and criteria.
- MissionOrder.Ordered: for leads this condition is exact for every repair over finished work (MissionRepair.OrderedLeadsExactly), and one whole run that breaks the promise is shown (MissionExample.UntestedRepairCompletes), not one for every such plan; that QA precedes review is required of every pair, although a review listed before one QA task and held by another could also come out in order.
- MissionWorld.Possible: item writes are made in the order of the code within an attempt; the resets of one repair may come in any order.
- Readiness.WorldSound: checks are recorded only while their execution runs, which the in-process guard and the single store owner ensure.
- Metadata fields joined with NUL characters are modelled as tuples, so values containing NUL are not considered.
- Provider budgets are one process's: the file lock that admits a single owner is an assumption, and a commit that fails after taking effect is not modelled.
- Ledger.Generate: one paid request at a time, as the request slot ensures; setup changes may happen between any two of its transactions.
- Field lengths, trimming and session lookups of work-item edits: single checks, kept as the inputs `stopped` and the normalised ids.
- Stored credentials and their rollback: verification digests do not cover them, so no claim does.
- Providers.ReadyWasTested: each save of a configuration gets a stamp of its own, as nanosecond timestamps do; availability, budget and credential checks only narrow what is shown ready.
- LogWriter.RedactingLog.Write: a line longer than the log limit is flushed in pieces; redaction of the whole is then not claimed.
- UTF-8 and secret patterns: logs are bytes, and redaction and the private-key markers are functions of a line.
- Append-only project memory, planning document contents, adapters' command lines, HTTP handlers, user interface and processes: plumbing, or facts of one body each.
- SQL is modelled as maps and sequences with atomic transactions.
