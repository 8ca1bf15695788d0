# Verified model of the material runtime

The repository drives one two-dimensional material through a pipeline of simulations. Agents
backed by language models propose and arbitrate the next action, tools and external jobs
answer, people may be asked. None of these can be trusted to answer sensibly, so the control
code around them carries the guarantees. This project models that code in Dafny and proves
what it keeps, with the answers of agents, tools, people and events left arbitrary.

| files | subject |
|---|---|
| `Runtime`, `Controller`, `Runs`, `Sessions`, `Reports`, `Endings`, `Outcomes`, `Effects`, `Submissions`, `Progress`, `Accounts`, `Retries`, `Scenarios` | the state of a run, the controller's steps on it, and what holds over every turn, call and sequence of calls |
| `Council`, `Deliberation`, `Sorting` | the worker pool and the two-attempt council |
| `Arbitration`, `Channels` | the guardrail around the arbitration reply, and the readings of channel parameters |
| `Dedupe`, `Json`, `DeepMerge`, `StatePatch` | the state algebra |
| `RelaxSearch`, `RetryAccounting`, `Refinement`, `Compaction`, `Batch`, `ChannelLedger`, `ExtendedJson` | algorithms with a simple specification of their own |

Code that changes state in place is written as methods and classes (`Controller.Material`,
`Council.CouncilRunner`, `RelaxSearch.SeenSet`, `StatePatch.MaterialTaskState`) whose
postconditions tie the new state to functions; the theorems are lemmas about those functions.
`drive` is a loop without bound: a call carries the answers of the surroundings for as many
turns as are considered, and the theorems hold for every number of turns.

Several laws one would expect fail for the code as it is. For each a lemma shows it at a
concrete input or sequence, and another says exactly when the law holds:

- An event that reports the stage `final_report` as completed keeps the final report from being
  written (`Reports.ForgedRunStaysUnreported`, `Runs.CallSettles`).
- After such an event, further ones that report the stage as failed have the report written
  again and again (`Reports.TwoReports`, `Reports.SecondReportIff`).
- Under full autonomy a call can return a run that has not ended: when it refuses a duplicate
  event, when the report is marked without having been written, also by an earlier call
  (`Endings.MarkedRunStaysUnended`), and when the run was asked to end before
  (`Endings.AskedRunStaysUnended`; all cases in `Endings.AutonomousCallsEnd`).
- An event id with surrounding space is consumed every time it is sent
  (`Sessions.PaddedIdIsConsumedAgain`, `Sessions.ResubmissionIsRefused`).
- Proposals that repeat an id can select an action that was found illegal
  (`Arbitration.RepeatedIdSelectsIllegal`, `Arbitration.AlwaysLegalIffFirstsAreLegal`).
- The shared `seen` set can hide a failure two edges away (`RelaxSearch.MissedFailure`,
  `RelaxSearch.ExactIffCovers`).
- Retry counts of other capabilities are lost, so with a budget of two or more alternating
  retries are not bounded (`Retries.AlternationIsUnbounded`,
  `RetryAccounting.OtherCountSurvives`).
- Channel parameters canonicalize differently the second time
  (`Channels.CanonicalIsNotIdempotent`, `Channels.CanonicalSettles`), and blank targets pass the
  legality check (`Channels.BlankTargetsPass`, `Channels.ReadingsCoincide`).
- `deep_merge` is neither associative nor idempotent in general
  (`DeepMerge.MergeOrderMatters`, `DeepMerge.AssociativeIffComposable`;
  `DeepMerge.SecondApplicationChanges`, `DeepMerge.IdempotentIffRepeatFree`).
- A stale job event marks its stage although it is called ignored, so a capability that was
  given up can be skipped (`Submissions.StaleEventCompletes`, `Submissions.StaleEventMarks`,
  `Submissions.LateCompletionSkips`).

## Model

| member | source | states |
|---|---|---|
| `Controller.NextCapabilityAfter` | mobility_agent/runtime/capability_registry.py:63-69 | the first planned capability that, stripped, is not blank and not completed |
| `Controller.UpdateJobs` | mobility_agent/graph/runtime_nodes.py:634-648 | every job with the event's id gets its status, the others stay; whether one matched |
| `Controller.DropJob` | mobility_agent/graph/runtime_nodes.py:1729-1737 | the jobs of other ids, in order |
| `Controller.CleanJobs` | mobility_agent/runtime/agentic_controller.py:2082-2091 | the jobs that are neither the blocked id nor on the blocked capability, in order |
| `Controller.Material.constructor` | mobility_agent/runtime/agentic_controller.py:1993-2035 | a new run |
| `Controller.Material.ConsumePendingEvent` | mobility_agent/graph/runtime_nodes.py:603-717 | taking up the first pending event: id, jobs, markers, observation and the resulting status, with the stale case apart |
| `Controller.Material.SyncEventProgress` | mobility_agent/runtime/agentic_controller.py:2183-2202 | the latest event marks a stage, also when it was stale |
| `Controller.Material.InjectEvent` | mobility_agent/runtime/agentic_controller.py:2037-2055 | the event joins the queue |
| `Controller.Material.RefusesEvent` | mobility_agent/runtime/agentic_controller.py:2126-2181 | an event is refused exactly in a terminal run or when a recorded id, stripped, equals its raw id |
| `Controller.Material.SyncCheckpoint` | mobility_agent/runtime/agentic_controller.py:401-424 | the checkpoint holds the completed stages and the reason to deliberate |
| `Controller.Material.ObserveState` | mobility_agent/graph/runtime_nodes.py:865-868 | a pending run starts; a waiting one takes up an event |
| `Controller.Material.SettleWithoutAction` | mobility_agent/runtime/agentic_controller.py:1474-1499 | the four outcomes of a council without action |
| `Controller.Material.SelectNothing` | mobility_agent/runtime/agentic_controller.py:1452-1533 | those outcomes with the cleared action and the checkpoint reason |
| `Controller.Material.SelectAction` | mobility_agent/runtime/agentic_controller.py:1534-1556 | the chosen action and its contract |
| `Controller.Material.Deliberate` | mobility_agent/runtime/agentic_controller.py:1156-1601 | one deliberation, with the relax-failure escalation after a failure council's no-op |
| `Controller.Material.ActivateContractAction` | mobility_agent/runtime/agentic_controller.py:1603-1675 | the next capability of the contract, or the wait for a council |
| `Controller.Material.Submit` | mobility_agent/graph/runtime_nodes.py:1715-1753 | a submission replaces the job of the same id and sets the wait markers |
| `Controller.Material.RunTool` | mobility_agent/graph/runtime_nodes.py:1778-1811 | stage mark, status and observation of a tool run |
| `Controller.Material.Perform` | mobility_agent/graph/runtime_nodes.py:1412-1464 | refinement: without fresh points a recovery, otherwise the merged plan and one more round |
| `Controller.Material.ApplyPoints` | mobility_agent/graph/runtime_nodes.py:1455-1464 | every named direction gets its points merged, and the round is counted |
| `Controller.Material.ExecuteAndCount` | mobility_agent/runtime/agentic_controller.py:1880-1893 | the execution with the retry accounting after it |
| `Controller.Material.Dispatch` | mobility_agent/graph/runtime_nodes.py:1491-1834 | the branches of the executor in their order |
| `Controller.Material.ExecuteSelectedAction` | mobility_agent/graph/runtime_nodes.py:1340-1850 | an illegal action fails the run, a legal one is performed |
| `Controller.Material.ExecuteEscalation` | mobility_agent/runtime/agentic_controller.py:1677-1837 | the human decision, with a timeout forced to skip unless it skips or aborts |
| `Controller.Material.ExecuteCurrentAction` | mobility_agent/runtime/agentic_controller.py:1839-1913 | execution and the checkpoint after it |
| `Controller.Material.RecoverWaitBoundary` | mobility_agent/runtime/agentic_controller.py:2057-2124 | the recovery from a wait: jobs, markers, flags, observation, status |
| `Controller.Material.WriteFinalReport` | mobility_agent/graph/runtime_nodes.py:1979-2027 | the report closes an open run as completed and marks its own stage |
| `Controller.Material.FinalizeIfNeeded` | mobility_agent/runtime/agentic_controller.py:1915-1949 | the report is written only when unmarked and the run is over or ready |
| `Controller.Material.GoWithoutAction` | mobility_agent/runtime/agentic_controller.py:2348-2375 | the loop's cases for a missing action |
| `Controller.Material.TakeTurn` | mobility_agent/runtime/agentic_controller.py:2309-2393 | one pass through the loop |
| `Controller.Material.Drive` | mobility_agent/runtime/agentic_controller.py:2204-2397 | a whole call: guard, event, loop, report |
| `Runs.ActionIsNeverMissing` | mobility_agent/runtime/agentic_controller.py:2366-2375 | the failure missing_selected_action after deliberation cannot happen |
| `Runs.TurnInOrder` | mobility_agent/runtime/agentic_controller.py:2309-2393 | a turn goes on only in a run not asked to end; it ends the loop only when the run is over, ready, or waits without full autonomy; a request to end comes with a status that ends |
| `Runs.ActEndsInOrder` | mobility_agent/runtime/agentic_controller.py:1880-1913 | every executed action keeps: termination requested implies terminal or ready to finalize |
| `Runs.TurnStandsAside` | mobility_agent/runtime/agentic_controller.py:2332-2393 | after its event is taken up, a turn changes neither queue, consumed ids, report count nor the report's mark |
| `Runs.TimedOutDecisionEnds` | mobility_agent/runtime/agentic_controller.py:1727-1798 | a timed-out decision stops the loop with the run skipped, or failed when it said abort |
| `Runs.TimedOutCallEnds` | mobility_agent/runtime/agentic_controller.py:1727-1798 | and the call returns with that status |
| `Runs.RecoveryDeliberates` | mobility_agent/runtime/agentic_controller.py:2057-2124 | a recovery leaves a reason to deliberate and no job of the blocked id or capability, and invents none |
| `Runs.EntryMark` | mobility_agent/runtime/agentic_controller.py:2183-2202 | exactly which events leave the final report marked as done |
| `Runs.EntryWorkflow` | mobility_agent/runtime/agentic_controller.py:2183-2202 | an accepted event gives its verdict on the stage it names, stale or not, and nothing else of the workflow but the status |
| `Runs.LoopSettles` | mobility_agent/runtime/agentic_controller.py:2309-2396 | what a loop may return, with and without the mark |
| `Runs.CallSettles` | mobility_agent/runtime/agentic_controller.py:2204-2397 | from a run that is finished with its report or unfinished without one, a returned call leaves the run finished with one report, waiting where allowed, or untouched by a refused event; exactly when its event does not forge the report's mark |
| `Reports.CallReports` | mobility_agent/runtime/agentic_controller.py:1915-1949 | what a call does to the report: never a second one over a mark, at most one, and the mark only by the report or an event on its stage |
| `Reports.EndIsAbsorbing` | mobility_agent/runtime/agentic_controller.py:2126-2158 | in every history, whatever its events, a terminal run is changed by no later call, and all of them return |
| `Reports.ReportedOnceForAll` | mobility_agent/runtime/agentic_controller.py:1915-1949 | forged marks included, at most one report in every history in which no accepted event reports the report's stage as failed in a reported run |
| `Reports.ReportPossibleIff` | mobility_agent/runtime/agentic_controller.py:1915-1949 | a call with a given event can write a report exactly when the event is accepted and leaves the report unmarked |
| `Reports.SecondReportIff` | mobility_agent/runtime/agentic_controller.py:2198-2199 | in a run with its report marked, a further report is possible exactly by an accepted event that reports the report's stage as failed |
| `Reports.TwoReports` | mobility_agent/runtime/agentic_controller.py:2183-2202 | three calls that write two reports in a run that has not ended; the first runs every stage before it finalizes, and every council judges by the state of the run |
| `Reports.ForgedRunStaysUnreported` | mobility_agent/runtime/agentic_controller.py:1915-1918 | in every run that has not ended, a forging event lets a call return ready_to_finalize without a report |
| `Endings.HistoriesLeave` | mobility_agent/runtime/agentic_controller.py:2204-2397 | after any calls, whatever their events, the queue is empty and the run has its report marked or can go on |
| `Endings.CallLeaves` | mobility_agent/runtime/agentic_controller.py:2204-2397 | from any such state: a refused event changes nothing, a mark keeps the report from being written, and otherwise a run not asked to end is over with one more report, or waits where waiting is allowed |
| `Endings.MarkedRunStaysUnended` | mobility_agent/runtime/agentic_controller.py:1915-1918 | under full autonomy a call that leaves the report marked, also one without an event, can return the run ready to finalize and unreported |
| `Endings.AskedRunStaysUnended` | mobility_agent/runtime/agentic_controller.py:2332-2341 | and a call of a run asked to end can return it in need of recovery |
| `Endings.AutonomousCallsEnd` | mobility_agent/runtime/agentic_controller.py:2204-2397 | under full autonomy, from every state that any calls can leave, every returning call with a given event, or none, ends the run exactly if the run is over, or the event is an accepted override that ends it, or the call is accepted and the run is then neither marked as reported nor was asked to end |
| `Outcomes.CallEndsAs` | mobility_agent/graph/runtime_nodes.py:1971-2027 | a call that is accepted, leaves the report unmarked and goes on to a turn that ends the run returns with that turn's status and one more report: found ready, finalized legally or completed by a person is completed; skipped, aborted and failed stay so |
| `Outcomes.LoopIsClosed` | mobility_agent/graph/runtime_nodes.py:1971-2027 | however the loop breaks: an unmarked run that is over, ready or asked to end is marked and counted, its status completed if it was open or ready and kept otherwise; any other is returned as it is |
| `Outcomes.ReadyRunIsCompleted` | mobility_agent/graph/runtime_nodes.py:1977-1979 | from every unfinished run a last turn that finds it ready, or finalizes it legally, leaves it completed, marked and reported once more |
| `Effects.EventIsObserved` | mobility_agent/graph/runtime_nodes.py:623-717 | status, observation, markers and request to end after an accepted event, from its own words, an unknown job apart |
| `Effects.EventIsRecorded` | mobility_agent/graph/runtime_nodes.py:603-648 | the event is the latest and recorded, and its status reaches the jobs with its id and no other |
| `Effects.FreshStartForgets` | mobility_agent/runtime/agentic_controller.py:2228-2275 | a call that starts anew is one on a new run, and refuses no event |
| `Effects.CouncilSitsIff` | mobility_agent/runtime/agentic_controller.py:983-1015 | exactly when a turn deliberates |
| `Effects.CouncilIsAbout` | mobility_agent/runtime/agentic_controller.py:983-1015 | exactly when the council is one about a failure, and when one about validation |
| `Effects.CouncilWaits` | mobility_agent/runtime/agentic_controller.py:1466-1476 | a council that waits leaves the run waiting for external work, or under full autonomy in recovery |
| `Effects.ValidationIsComputed` | mobility_agent/runtime/agentic_controller.py:1477-1487 | a council about validation without an action completes the stage with the report it computes, and ends the loop |
| `Effects.CouncilPlans` | mobility_agent/runtime/agentic_controller.py:1534-1556 | a selected action is executed under the plan that comes with it, in a run that has begun |
| `Effects.RelaxFailureAsksPerson` | mobility_agent/runtime/agentic_controller.py:1397-1451 | a failure council that selects nothing asks a person when there is evidence of a failed relaxation |
| `Effects.ContractIsFollowed` | mobility_agent/runtime/agentic_controller.py:1603-1675 | without a council the next capability not known as completed is run, and when there is none the next turn deliberates |
| `Effects.AllowedIffNotObjected` | mobility_agent/runtime/agent_tools.py:819-975 | an action is allowed exactly when none of the check's objections holds |
| `Effects.StageIsRun` | mobility_agent/graph/runtime_nodes.py:1778-1834 | a stage's tool marks its stage alone and is observed, and the run goes on, into recovery when it failed |
| `Effects.ValidationIsMarked` | mobility_agent/graph/runtime_nodes.py:1602-1628 | a validation succeeds and is marked, whatever is validated anew |
| `Effects.ChannelsAreActedOn` | mobility_agent/graph/runtime_nodes.py:1629-1699 | an action on channels succeeds exactly when the executor reads some, and touches no stage |
| `Effects.NothingIsRun` | mobility_agent/graph/runtime_nodes.py:1436-1454 | a refinement without fresh points and a repair of no stage only send the run into recovery |
| `Effects.SubmissionWaits` | mobility_agent/graph/runtime_nodes.py:1715-1777 | a submission puts its job last and sets the markers; the call returns waiting, or under full autonomy goes on in recovery |
| `Effects.PersonResumes` | mobility_agent/runtime/agentic_controller.py:1799-1837 | a person who does not end the run sets it going again, with the stage to resume from as last success |
| `Effects.LastActionIsObserved` | mobility_agent/graph/runtime_nodes.py:1345-1399 | an action that ends the run is observed on its target, a finalize as success, an abort or an illegal one as failure |
| `Effects.LastDecisionIsObserved` | mobility_agent/runtime/agentic_controller.py:1740-1798 | so is a person's decision that ends it: completion, omission or failure |
| `Effects.ExecutionCountsAs` | mobility_agent/graph/runtime_nodes.py:1700-1714 | which executions enter into the retry counts, and as what |
| `Effects.WaitIsLeft` | mobility_agent/runtime/agentic_controller.py:2057-2124 | a wait is returned as it is, or under full autonomy left: the blocking jobs, the flags and the markers go, and what was in progress has failed |
| `Sessions.CallsRest` | mobility_agent/runtime/agentic_controller.py:2204-2397 | the state between calls, over any sequence of calls without forged marks |
| `Sessions.EndIsFinal` | mobility_agent/runtime/agentic_controller.py:2126-2158 | an ended run is unchanged by any later calls, which all return |
| `Sessions.HonestRunsReportOnce` | mobility_agent/runtime/agentic_controller.py:1915-1949 | without forged marks the report is written exactly when the run ends |
| `Sessions.CallConsumes` | mobility_agent/runtime/agentic_controller.py:2037-2055 | a call leaves an empty queue and consumes its own event exactly once unless refused |
| `Sessions.ResubmissionIsRefused` | mobility_agent/runtime/agentic_controller.py:2159-2181 | a consumed id is refused in a run that goes on exactly when it has no surrounding space |
| `Sessions.ConsumedAtMostOnce` | mobility_agent/graph/runtime_nodes.py:603-622 | over any calls the queue is empty at every return and each id without surrounding space is consumed at most once |
| `Sessions.PaddedIdIsConsumedAgain` | mobility_agent/runtime/agentic_controller.py:2159-2163 | an id with surrounding space is consumed every time it is sent |
| `Submissions.SubmissionKeepsDistinct` | mobility_agent/graph/runtime_nodes.py:1715-1737 | job ids stay pairwise distinct through a submission |
| `Submissions.EventKeepsJobIds` | mobility_agent/graph/runtime_nodes.py:634-648 | an event changes no job's id or place |
| `Submissions.RecoveryKeepsDistinct` | mobility_agent/runtime/agentic_controller.py:2072-2091 | job ids stay pairwise distinct through a recovery |
| `Submissions.CallsKeepJobs` | mobility_agent/graph/runtime_nodes.py:1729-1737 | in every reachable state the job ids are pairwise distinct |
| `Submissions.StaleEventMarks` | mobility_agent/runtime/agentic_controller.py:2183-2202 | an event ignored as stale leaves the stages alone exactly when it names none or one with its verdict |
| `Submissions.StaleEventCompletes` | mobility_agent/graph/runtime_nodes.py:649-656 | a stale completion that completes a stage |
| `Submissions.LateCompletionSkips` | mobility_agent/runtime/agentic_controller.py:2183-2202 | the late completion of a job that a recovery gave up completes its stage, which is then never the next capability |
| `Submissions.OnlyQuietActionsExecute` | mobility_agent/agents/orchestrator.py:70-91 | what is planned for execution has no submit or wait flag when its family is local, whatever the council said |
| `Submissions.SubmittersRepair` | mobility_agent/graph/runtime_nodes.py:1715-1737 | of all planned actions only a repair of the execution context, on a known stage and where waiting is allowed, changes the external jobs |
| `Submissions.SubmittedJobReportsBack` | mobility_agent/graph/runtime_nodes.py:634-717 | a submitted job is under way, and its completion is recognized: it marks job and stage, clears the markers and resumes the run |
| `Submissions.RecoveredJobIsStale` | mobility_agent/runtime/agentic_controller.py:2072-2091 | the events of a job that a recovery gave up are stale |
| `Progress.NextIsOpen` | mobility_agent/runtime/capability_registry.py:63-69 | the next capability is a planned one that is not completed, and there is one exactly when some are open |
| `Progress.NextIsFirst` | mobility_agent/runtime/capability_registry.py:63-69 | every planned capability before the next one is blank or completed |
| `Progress.ContractAdvances` | mobility_agent/runtime/agentic_controller.py:1603-1675 | a turn that follows the contract closes one of its capabilities, or the next turn deliberates |
| `Progress.CouncilReturns` | mobility_agent/runtime/agentic_controller.py:983-1015 | without a council at most as many turns go on as the contract has open capabilities, and one more |
| `Progress.FailureIsDeliberated` | mobility_agent/runtime/agentic_controller.py:997-1001 | whatever was executed and failed without ending the run, the next turn calls a failure council |
| `Progress.SelectedActionIsPerformed` | mobility_agent/graph/runtime_nodes.py:1345-1399 | with distinct proposal ids an action the council selects is never refused by the executor, when both make the same check |
| `Progress.RefusedIffNotAccepted` | mobility_agent/graph/runtime_nodes.py:1363-1399 | the executor refuses a selected action exactly when the council's check had not accepted it |
| `Progress.OverrideEndsRun` | mobility_agent/graph/runtime_nodes.py:676-687 | an override to skip or abort ends a run that was going on, in the same call, with its report |
| `Accounts.LoopKeepsBooks` | mobility_agent/runtime/agentic_controller.py:1880-1893 | the counts, the rounds and the strain plan after a loop are those before it after its legally executed actions, each of them within budget and rounds |
| `Accounts.RetriesStayInBudget` | mobility_agent/runtime/agent_tools.py:903-907 | in any calls whose counted executions are all retries and reruns of one capability, the legal retries are bounded by the budget left, and every one is counted |
| `Accounts.CallsKeepPoints` | mobility_agent/graph/runtime_nodes.py:1455-1464 | over any calls the rounds count the refinements that applied points and fit the limit, the plan is the earlier one with exactly these merged in, and every direction keeps its points, rounded, in strictly increasing order where it was touched |
| `Retries.ExhaustedTurnStops` | mobility_agent/agents/orchestrator.py:235-265 | once a failed capability has used up its retries, a council that judges by the state has nothing executed: the turn raises, asks a person on evidence of a failed relaxation, or ends the loop with the run over or ready |
| `Retries.ExhaustedRunEnds` | mobility_agent/runtime/agentic_controller.py:1474-1499 | so without that evidence the call raises or ends in this turn, the run over and its report written |
| `Retries.ActsAfterFailureIff` | mobility_agent/agents/orchestrator.py:235-265 | after a failure such a council can have something executed exactly while the failed capability has retries left |
| `Retries.AlternationIsUnbounded` | mobility_agent/graph/runtime_nodes.py:766-771 | with a budget of two or more, any number of failing retries of two capabilities in turn fits into the first call of a run, by councils that judge by the state |
| `Council.PoolAgrees` | mobility_agent/runtime/agentic_controller.py:603-746 | the pool's failures, cache and calls are those of running the specs one by one, and its results the same set |
| `Council.InSpecOrder` | mobility_agent/runtime/agentic_controller.py:724-746 | results and failures come in the order of the specs |
| `Council.EachSpecLandsOnce` | mobility_agent/runtime/agentic_controller.py:603-746 | every spec lands exactly once, in results or failures |
| `Council.OneByOneCalls` | mobility_agent/runtime/agentic_controller.py:624-651 | the calls made are those of the specs the cache has no answer for |
| `Council.OutputsAreAnswers` | mobility_agent/runtime/agentic_controller.py:553-601 | every result hands on the output that was cached or that the role's own call answered, and says which; every failure carries what the call raised |
| `Council.AnswersAreCached` | mobility_agent/runtime/agentic_controller.py:588-601 | the cache after the specs: what it held, and the entries of the calls that answered; a call that raised leaves none |
| `Council.RecoveryDiagnoses` | mobility_agent/runtime/agentic_controller.py:724-746 | the diagnosis is the recovery role's when its call is made and answers, and otherwise as before |
| `Council.CouncilRunner.RunRolesParallel` | mobility_agent/runtime/agentic_controller.py:603-746 | for every completion order of the workers the run is the one-by-one run |
| `Council.CouncilRunner.RunRole` | mobility_agent/runtime/agentic_controller.py:553-601 | a cached answer without a call, or one call whose answer is cached |
| `Council.CouncilRunner.RunReviewerRoles` | mobility_agent/runtime/agentic_controller.py:748-807 | the serialized path gives the outputs and failures of the pool |
| `Council.CouncilRunner.CompleteAll` | mobility_agent/runtime/agentic_controller.py:662-700 | each pending call is made once, in any order |
| `Deliberation.Deliberate` | mobility_agent/runtime/agentic_controller.py:1208-1396 | the two attempts, with the cache of the first carried to the second |
| `Deliberation.RunAttempt` | mobility_agent/runtime/agentic_controller.py:1208-1360 | one attempt stops at the first phase whose critical role fails |
| `Deliberation.CouncilSound` | mobility_agent/runtime/agentic_controller.py:1208-1396 | the invariant of the calls, the cache and the roles over both attempts |
| `Deliberation.CouncilCallsAreBounded` | mobility_agent/runtime/agentic_controller.py:553-601 | each key is called successfully at most once, a cached one never, each role at most twice and once per attempt |
| `Deliberation.AttemptVerdict` | mobility_agent/runtime/agentic_controller.py:1208-1396 | an attempt decides what the orchestrator's record says exactly when the leading proposer, the physics judge and the orchestrator have an answer, and otherwise fails with the first that has none |
| `Deliberation.CouncilDecidesIff` | mobility_agent/runtime/agentic_controller.py:1208-1396 | the council decides exactly when they have one in its first attempt, or in a second that starts from its cache |
| `Deliberation.OrchestratorSees` | mobility_agent/runtime/agentic_controller.py:1240-1360 | the reviewers are shown every proposal, the orchestrator every proposal, critique and preference that was given, in the order of the roles |
| `Deliberation.ReusedOutputsWereGiven` | mobility_agent/runtime/agentic_controller.py:624-651 | in both attempts a reused output was given for its key before, and every other one by the role's own call |
| `Deliberation.ReusedIsFirstProduced` | mobility_agent/runtime/agentic_controller.py:624-651 | what the cache adds in a council is the answer of the one successful call that first gave it |
| `Channels.CanonicalizeActionParameters` | mobility_agent/agents/orchestrator.py:35-68 | the canonical form of channel parameters, or the exception |
| `Channels.CanonicalSettles` | mobility_agent/agents/orchestrator.py:35-68 | stable from the second application on; after the first exactly unless an empty alias hid a single channel |
| `Channels.CanonicalIsNotIdempotent` | mobility_agent/agents/orchestrator.py:50-66 | the parameters that change twice |
| `Channels.ReadingsCoincide` | mobility_agent/runtime/agent_tools.py:791-816 | on canonical parameters check and executor read the same channels, exactly unless the given channels are all blank |
| `Channels.BlankTargetsPass` | mobility_agent/runtime/agent_tools.py:869-870 | one empty name passes the check and leaves the executor nothing |
| `Channels.ChannelsAreReadFrom` | mobility_agent/agents/orchestrator.py:44-58 | the target channels come first, then the first alias that is given, then the single channel; a text, a list or a dictionary gives its entries and other values raise |
| `Channels.NamesAreTexts` | mobility_agent/agents/orchestrator.py:60-60 | the names are the stripped texts that are not blank, in order |
| `Channels.CanonicalMeans` | mobility_agent/agents/orchestrator.py:61-68 | canonical parameters hold the channels read under one key, no alias, and everything else as it was |
| `Channels.StripKeepsMiddle` | mobility_agent/agents/orchestrator.py:60-60 | stripping takes away surrounding space and nothing else |
| `Channels.LowerMeans` | mobility_agent/graph/state.py:252-253 | lower case takes each capital of ASCII to its small letter and keeps the rest |
| `Channels.RawReadingsDiffer` | mobility_agent/graph/runtime_nodes.py:750-763 | raw parameters on which the two readings differ |
| `Arbitration.Tally` | mobility_agent/agents/orchestrator.py:341-354 | stances and strengths per proposal |
| `Arbitration.PickPreferred` | mobility_agent/agents/orchestrator.py:383-396 | the head of the stable ranking |
| `Arbitration.PreferredComesFirst` | mobility_agent/agents/orchestrator.py:383-396 | no viable proposal precedes the preferred one by fewer objections, then more support, more summed strength, less risk, less cost, and of those that tie it is the first |
| `Arbitration.StancesCount` | mobility_agent/agents/orchestrator.py:341-350 | the stances counted are the critiques that take them |
| `Arbitration.StrengthsAdd` | mobility_agent/agents/orchestrator.py:351-354 | the strengths of a proposal add up over any parts of the preferences |
| `Arbitration.Guardrail` | mobility_agent/agents/orchestrator.py:225-418 | the exhausted budget, the missing proposals, the viable ones with the preferred |
| `Arbitration.Decide` | mobility_agent/agents/orchestrator.py:471-598 | override, named proposal or fallback |
| `Arbitration.Arbitrate` | mobility_agent/agents/orchestrator.py:421-598 | the outcome for any reply |
| `Arbitration.ReplyDecides` | mobility_agent/agents/orchestrator.py:421-598 | a reply selects the viable proposal it names, the preferred one when it names none or gives an action for an unknown one, and nothing otherwise |
| `Arbitration.OverrideIsTaken` | mobility_agent/agents/orchestrator.py:471-520 | a legal override is selected as it is, once canonical |
| `Arbitration.NothingViable` | mobility_agent/agents/orchestrator.py:267-382 | without a viable proposal nothing is selected, and the record waits or is ready as the run is |
| `Arbitration.AlwaysLegalIffFirstsAreLegal` | mobility_agent/agents/orchestrator.py:124-133 | for given proposals every reply selects a legal action exactly when each id that can be settled on is legal at its first occurrence |
| `Arbitration.SelectedActionIsLegal` | mobility_agent/agents/orchestrator.py:421-598 | with distinct ids a selected action was accepted as it stands and is a legal proposal's or a legal override |
| `Arbitration.RepeatedIdSelectsIllegal` | mobility_agent/agents/orchestrator.py:124-133 | a repeated id selects the illegal first proposal |
| `Arbitration.LocalActionsDoNotWait` | mobility_agent/agents/orchestrator.py:171-193 | a selected action of a local family has no flag, and the record does not wait |
| `Arbitration.GuardDoesNotRaise` | mobility_agent/agents/orchestrator.py:313-320 | the second canonicalization never raises |
| `Dedupe.DedupeKeepOrder` | mobility_agent/utils.py:10-27 | the first item of every marker, in order |
| `Dedupe.DedupedAreFirsts` | mobility_agent/utils.py:10-27 | what is kept are the firsts of their marker |
| `Dedupe.DedupeAssociates` | mobility_agent/utils.py:10-27 | deduplicating either part first does not matter |
| `Dedupe.DedupeTwice` | mobility_agent/utils.py:10-27 | two passes are one with both sets of seen markers |
| `Dedupe.DedupeFixedPoint` | mobility_agent/utils.py:10-27 | a list is unchanged exactly when no marker repeats or was seen |
| `Dedupe.DedupeAbsorbs` | mobility_agent/utils.py:10-27 | appending a list again adds nothing |
| `DeepMerge.DeepMerge` | mobility_agent/graph/state.py:669-684 | the merge, entry by entry |
| `DeepMerge.MergedAt` | mobility_agent/graph/state.py:669-684 | what a merge holds along any keys: lists are joined exactly where the dotted name of the keys is an append path, the base's items first; elsewhere the update's value stands where it has one, and the base's where the update leaves it alone |
| `DeepMerge.NestedListsAppend` | mobility_agent/graph/state.py:674-681 | in a whole state a list at nested keys is appended to exactly when the keys joined by dots name an append path |
| `DeepMerge.MergedWellFormed` | mobility_agent/graph/state.py:669-684 | a merge of JSON values is one |
| `DeepMerge.AssociativeIffComposable` | mobility_agent/graph/state.py:669-684 | merging the updates first is the same for every base exactly when the second composes after the first |
| `DeepMerge.IdempotentIffRepeatFree` | mobility_agent/graph/state.py:677-684 | a second application changes nothing for every base exactly when the update's append lists repeat no marker |
| `DeepMerge.MergeOrderMatters` | mobility_agent/graph/state.py:669-684 | three values for which the order matters |
| `DeepMerge.SecondApplicationChanges` | mobility_agent/graph/state.py:677-684 | an update whose second application changes the result |
| `DeepMerge.SelfMerge` | mobility_agent/graph/state.py:669-684 | an update absorbs itself exactly when repeat-free |
| `StatePatch.MaterialTaskState.Normalize` | mobility_agent/graph/state.py:505-532 | all the repairs, one assignment after the other |
| `StatePatch.IdentityIsRepaired` | mobility_agent/graph/state.py:506-514 | ids and goals stand where given and are taken from the other section where not |
| `StatePatch.ListsAreRepaired` | mobility_agent/graph/state.py:515-528 | each list keeps its first entries, and an artifact is registered with its path unless it is registered already |
| `StatePatch.TheRestIsKept` | mobility_agent/graph/state.py:505-532 | nothing else is changed |
| `StatePatch.ProviderMeans` | mobility_agent/config_runtime.py:58-64 | a provider is its name in lower case without surrounding space; the absent and the compatible one are openai |
| `StatePatch.ProviderTwice` | mobility_agent/config_runtime.py:58-64 | the provider's normal form is settled |
| `StatePatch.NormalizedTwice` | mobility_agent/graph/state.py:505-532 | a second normalization only moves the time |
| `StatePatch.AppliedIsMixed` | mobility_agent/graph/state.py:687-716 | what a patch of some sections does |
| `StatePatch.PatchRoundTrip` | mobility_agent/graph/state.py:687-716 | applying the patch between two states gives the second, normalized |
| `StatePatch.PatchesChain` | mobility_agent/graph/state.py:687-716 | patches applied in sequence reach the last state, as the direct patch does |
| `StatePatch.EmptyPatchIffSame` | mobility_agent/graph/state.py:687-704 | nothing is patched exactly when the states agree but for the time |
| `StatePatch.PartialPatchIsExact` | mobility_agent/graph/state.py:687-716 | a partial patch moves just its sections exactly unless an id or goal is filled across |
| `StatePatch.BlockedBoardIsRefilled` | mobility_agent/graph/state.py:530-531 | a board with only blocked tasks, and no other, gets the whole plan back: every stage pending, each depending on the one before it |
| `RelaxSearch.PayloadHasRelaxFailure` | mobility_agent/policy/engine.py:161-179 | the search with its shared seen set, on any object graph |
| `RelaxSearch.SearchIsSound` | mobility_agent/policy/engine.py:161-179 | True means a failing value within eight edges |
| `RelaxSearch.ExactIffCovers` | mobility_agent/policy/engine.py:161-179 | the search finds every failure within eight edges, for all labels, exactly when it examines every value there |
| `RelaxSearch.ShallowSearchIsExact` | mobility_agent/policy/engine.py:161-179 | where no walk is longer than eight edges the answer is exact |
| `RelaxSearch.SearchRefinesTreeSearch` | mobility_agent/policy/engine.py:161-179 | it then equals the tree search that revisits |
| `RelaxSearch.TreeSearchIsBounded` | mobility_agent/policy/engine.py:161-179 | the tree search answers for the walks within the depth |
| `RelaxSearch.ChildrenAreEdges` | mobility_agent/policy/engine.py:171-177 | the values searched are those at the positions of the container, a dictionary's among them |
| `RelaxSearch.FoundInMappings` | mobility_agent/policy/engine.py:171-174 | a failure in a dictionary in a dictionary is found |
| `RelaxSearch.MissedFailure` | mobility_agent/policy/engine.py:161-179 | a graph whose failure two edges away is missed |
| `RetryAccounting.ExecuteCounted` | mobility_agent/runtime/agentic_controller.py:1880-1898 | what an execution does to the recorded counts |
| `RetryAccounting.RetryRaisesCount` | mobility_agent/runtime/agentic_controller.py:133-170 | a legal retry raises its count by one, exactly unless its error text is disguised as a refusal |
| `RetryAccounting.OtherCountSurvives` | mobility_agent/graph/runtime_nodes.py:766-771 | another capability's count survives a step exactly when the step replaces no counts or there was none |
| `RetryAccounting.OtherCountsAreLost` | mobility_agent/graph/runtime_nodes.py:766-771 | a counted execution forgets the other capabilities |
| `RetryAccounting.FailedRunResetsCount` | mobility_agent/graph/runtime_nodes.py:1806-1808 | a failed run leaves one entry |
| `RetryAccounting.StretchCounts` | mobility_agent/runtime/agentic_controller.py:121-170 | in an uninterrupted stretch every retry and rerun is counted |
| `RetryAccounting.StretchIsBounded` | mobility_agent/runtime/agent_tools.py:903-907 | and the legal retries stay within the budget |
| `Refinement.OneIncreasingOrder` | mobility_agent/graph/runtime_nodes.py:1459-1459 | the sorted list of a set is unique |
| `Refinement.RoundIsNearest` | mobility_agent/graph/runtime_nodes.py:1459-1459 | rounding gives the nearest millionth, the even one of two |
| `Refinement.ExtendPlan` | mobility_agent/graph/runtime_nodes.py:1455-1463 | the merged plan of every direction |
| `Refinement.RefinementKeepsPoints` | mobility_agent/graph/runtime_nodes.py:1455-1463 | touched directions are strictly increasing and hold exactly the rounded old and new points |
| `Compaction.LongTextsAreCut` | mobility_agent/agents/base.py:298-303 | a long text keeps its first 4000 characters and says how many it lost |
| `Compaction.ListsKeep` | mobility_agent/agents/base.py:306-322 | a list keeps its items, a long one the first two and the last four, with the number of all |
| `Compaction.DictionariesKeep` | mobility_agent/agents/base.py:325-338 | a dictionary keeps its entries, a long one those of its first twenty keys, with a summary of all |
| `Compaction.DeepContainersPreview` | mobility_agent/agents/base.py:439-463 | a container at the depth is shown as the first 800 characters of its text |
| `Compaction.CompactBounded` | mobility_agent/agents/base.py:298-338 | on any JSON value: well-formed, height and size within the limits of the depth, texts short or listed key names |
| `Compaction.LimitsInNumbers` | mobility_agent/agents/base.py:439-463 | height 13 and 21726314 nodes at the top |
| `Compaction.FittingIsUnchanged` | mobility_agent/agents/base.py:439-463 | values within the limits are returned as they are |
| `Compaction.CuttingSettles` | mobility_agent/agents/base.py:298-303 | cutting twice is cutting once exactly within the limit or 24 characters above |
| `Batch.SummarizeForTool` | mobility_agent/runtime/agent_tools.py:1207-1250 | the tool's loop counts each criterion |
| `Batch.SummarizeForReport` | mobility_agent/agents/reporter.py:97-137 | the reporter's loop counts the same criteria, but for failed |
| `Batch.DerivedMeans` | mobility_agent/graph/state.py:141-161 | what a status comes to: completed exactly with results and no failed computing stage in a run that is over |
| `Batch.BuiltSaysBoth` | mobility_agent/graph/state.py:1029-1074 | a built outcome holds what the run came to and the run's own status |
| `Batch.StatedStatusStands` | mobility_agent/graph/state.py:229-238 | a stated status stands when no final one contradicts it |
| `Batch.BucketReadsVerdict` | mobility_agent/graph/state.py:245-260 | the acceptance, or without one the validation's decision, is read as one of six words, whatever its case and surrounding space |
| `Batch.FailureIsPutDown` | mobility_agent/runtime/agent_tools.py:1224-1239 | the failure is put down to the first failed stage, or to the reason given |
| `Batch.ToolConserves` | mobility_agent/runtime/agent_tools.py:1207-1250 | statuses, science buckets and failure stages add up |
| `Batch.SummariesAgree` | mobility_agent/agents/reporter.py:116-137 | both summaries are equal exactly when every status is terminal |
| `Batch.SummaryIgnoresOrder` | mobility_agent/runtime/agent_tools.py:1218-1239 | reordering the outcomes changes nothing |
| `Batch.StatusIsReadBack` | mobility_agent/graph/state.py:1029-1074 | the status read back from a built outcome is the state's |
| `ChannelLedger.SubchannelTokens` | mobility_agent/runtime/channel_utils.py:39-53 | the canonical subchannels any targets stand for |
| `ChannelLedger.TokensMean` | mobility_agent/runtime/channel_utils.py:8-53 | an entry stands for a subchannel exactly when it is its direction, or its carrier and direction, in any case and with surrounding space |
| `ChannelLedger.DeriveAcceptance` | mobility_agent/runtime/channel_utils.py:69-83 | which directions are accepted and rejected, none of them both |
| `ChannelLedger.ExcludeChannels` | mobility_agent/graph/runtime_nodes.py:1632-1639 | retained and rejected after an action |
| `ChannelLedger.ExclusionKeepsPartition` | mobility_agent/graph/runtime_nodes.py:1629-1659 | one action keeps the partition of the four |
| `ChannelLedger.LedgerIsKept` | mobility_agent/graph/runtime_nodes.py:1629-1659 | any sequence of actions keeps the partitions and only shrinks what is accepted |
| `ChannelLedger.SpellingSurvives` | mobility_agent/graph/runtime_nodes.py:1636-1639 | an excluded direction stays accepted exactly when retained in a spelling that is not canonical |
| `ExtendedJson.CleanIffPayloadsClean` | mobility_agent/runtime/normalize.py:14-42 | no wrapper is left exactly when the number payloads reached have none |
| `ExtendedJson.FixedIffClean` | mobility_agent/runtime/normalize.py:14-42 | the fixed points are the values without wrappers |
| `ExtendedJson.IdempotentIffPayloadsClean` | mobility_agent/runtime/normalize.py:14-42 | idempotent exactly on those values |
| `ExtendedJson.WrappersMean` | mobility_agent/runtime/normalize.py:14-42 | a number text unwraps to its number, or to itself; an id to its text; a date to its unwrapped payload |
| `ExtendedJson.TheRestIsUnwrapped` | mobility_agent/runtime/normalize.py:34-42 | everything else keeps its shape, with what is below unwrapped |
| `ExtendedJson.ScalarsUnwrap` | mobility_agent/runtime/normalize.py:26-33 | scalar number payloads suffice |

## Left out

- Language-model clients, prompts, retries with sleep, retrieval, databases, e-mail, web console, command line and configuration parsing: input and output around libraries.
- The simulation tools and physics validators: their results are arbitrary values, and so are the bodies of the refinement and validation policies and of the checkpoint store.
- Task boards and the capability dependencies: their part in legality and in the reasons to deliberate is an arbitrary flag of each turn (`otherwiseLegal`, `allResolved`), as is required evidence. The runs built in `Reports.TwoReports` and `Retries.AlternationIsUnbounded` set the flag for actions whose dependencies have been completed and, for a retry, after a failure.
- Timestamps, telemetry, traces, user-interface events, ledgers of decisions and SHA-256: erased; a payload's hash is the payload itself.
- Exceptional exits and crash points inside `drive`: a call that raises is one outcome without a state; serialization failures and non-numeric confidence values are not modelled.
- Termination of `drive`: the loop has no bound in the program, so the theorems are about calls that return.
- `state_updates` a tool returns: they are merged into the whole state by the program and could overwrite any section, the report's mark included; the model takes a tool's result to be its status.
- Event ids the program makes up from time and target when the caller gives none: an event of the model has one id throughout.
- The interrupting escalation branch inside the executor node (mobility_agent/graph/runtime_nodes.py:1515-1598): the controller sends escalations elsewhere, so it is not reached.
- Contract fields besides the planned capabilities, and the table that plans them: any planned list is allowed.
- Controller.Material.RunTool: takes a tool's result to be its status; the artifacts and `state_updates` it merges into the state are not modelled.
- Controller.Material.ExecuteSelectedAction: the task-board, dependency and evidence conditions of the legality check are one arbitrary flag.
- Role metrics, omitted roles and the cooldown between the attempts of a council; agents that mutate the snapshot they are shown.
- Floating-point rounding: points, risks and strengths are reals, and numbers such as NaN do not occur.
- Lower-casing beyond ASCII letters.
- Legacy and missing state payloads, and the coercions of the validation library: a state has its sections, each of its type.
- StatePatch.PatchRoundTrip: the loop over sections is written as one comparison per section, because the sections have different types.
- Compaction.CompactBounded: the names of keys are not bounded, because the program does not cut them; values that are not JSON are left out.
- Compaction.FittingIsUnchanged: one direction only, because some values beyond the limits, such as a text that already ends in its own mark, are unchanged too.
- The channel lists of a material without a validation report (mobility_agent/graph/runtime_nodes.py:1640-1653).
- The fixed tables of stages, actions and recoveries: finite data.
