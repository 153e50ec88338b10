# Verification of the orchestration core

A Dafny model of the run protocol of `alpha_orchestration` and of the deterministic
calculations around it, with proofs about all of its runs. It verifies with
`dafny verify dfyconfig.toml`.

What is modelled, file by file:

- `Dag.dfy`: the stable topological order, the cycle search and the reducer's level
  peeling over task graphs.
- `Events.dfy`, `Reducer.dfy`, `Histories.dfy`: run events and the reducer, as a function
  from a state and an event to the next state or a refusal; what every accepted stream keeps,
  and what a state says of the stream that led to it.
- `Workload.dfy`: what a fixed workflow computes, without saying when. A task body is
  any function from a task and its dependency outcomes to a finite event trace and a last
  outcome; a verdict for every task solves one equation per task.
- `Scheduler.dfy`, `SchedulerInvariant.dfy`, `SchedulerTheorems.dfy`: the concurrent
  scheduler as a state machine whose actors are the scheduler coroutine and the workers.
  A run is any finite sequence of actors, so every statement is about all interleavings.
- `Simulation.dfy`, `FixedDagStream.dfy`: the reducer accepts everything the runtime can
  emit, from registration to the closing event, serially and concurrently.
- `Agents.dfy`, `WaitingAgents.dfy`, `HiddenWait.dfy`: what the agents of a fixed workflow
  show while their tasks work and wait, with a run in which one shows the wrong thing.
- `TurnLoop.dfy`, `Repairs.dfy`, `Provenance.dfy`: the turn loop as a concrete task body;
  which answers end a task, cost a repair or fail it; and what endings and sources say about
  a task's ancestors.
- `Controller.dfy`: the run controller, its journal and replay.
- `Waves.dfy`, `ScreenIntervals.dfy`, `ScreenOutcomes.dfy`, `ManifestWaves.dfy`: the
  lane-exclusive waves of the automatic screen, the events it emits, the journal checker that
  must accept them, the task records they leave, and when the waves over a manifest are the
  fewest possible.
- `Ledger.dfy`, `Universe.dfy`, `Ranking.dfy`, `Forecasts.dfy`: the observation ledger, the
  universe discovery, percentile ranking and discounted cash flow, the last two over exact
  reals.
- `Common.dfy`, `Sorting.dfy`: shared vocabulary, and stable sorting by a linear order.

Seven properties one might expect do not hold of the code as it stands, and are stated with
their exact condition:

- A journal replays to the controller's state exactly when the controller was started: a
  run cancelled before its start has RUN_CANCELLED as its only event, which replay
  refuses (`ReplayRebuilds`, `EarlyCancellationCannotReplay`).
- Higher and lower percentile scores sum to 100 exactly when at least two values are
  observed; a single value scores 100 both ways (`DirectionsComplement`).
- The degraded ancestry names exactly the incomplete ancestors that are not hidden behind
  a skipped task, because a skipped task carries no ancestry (`DegradedAncestryIsExact`,
  `SkipHidesItsCause`).
- Greedy waves are the fewest possible, whatever the issuers on at most n lanes, exactly
  with one slot or with n slots or more (`GreedyIsOptimalIff`). Over the members of a given
  manifest they are so exactly with one slot, with eight or more, or when the manifest has
  at most eight members more than there are slots; with two slots and eleven members, those
  at places 0, 1, 2 and 10 take three waves where two would do (`FewestWavesIff`,
  `CrowdTakesThree`).
- A run of the fixed workflow that is over has finished its tasks exactly when no task that
  runs meets an answer that raises past the turn loop's handlers (`FixedDagRunsFinishIff`):
  a model or tool that raises something other than an `Exception`, or an answer nested so
  deep that reading it exhausts the stack, leaves the loop and stops the run
  (`EscapeAbortsRun`). A caller can rule it out by asking only models and tools that never
  answer so (`FixedDagRunsFinish`).
- An agent whose task waits for a tool shows it exactly when the last event of the agent's
  tasks is not a skip (`WaitsAreShownIff`): the concurrent scheduler may skip a second task of
  the agent meanwhile, and the reducer then sets the agent running (`WaitIsHidden`). It is
  always shown when no other task of the agent can be skipped (`WaitsAreShown`), and always
  in the serial loop (`SerialWaitsAreShown`).
- A pause and a resumption bring a run back to its status exactly when it was running: a run
  paused while synthesizing comes back as running (`PauseAndResume`).

Where code and documentation differ the model follows the code: `docs/architecture.md`
describes serial execution that journals `actual_active_slots: 1`, while
`src/alpha_orchestration/fixed_dag.py` runs concurrently whenever more than one slot is
effective and journals no actual slot count.

## Model

| member | source | states |
|---|---|---|
| `Dag.StableTopologicalIds` | src/alpha_orchestration/dag.py:259-284 | an order is returned exactly for acyclic graphs; it respects every dependency and is the lexicographically least such order by declaration position; a refusal carries a closed walk along real dependency edges |
| `Dag.OrderDeclared` | src/alpha_orchestration/dag.py:265-284 | Kahn's loop over positions: it drains exactly when the graph is acyclic, so the fallback rendering of a cycle is dead |
| `Dag.FindCycle` | src/alpha_orchestration/dag.py:287-312 | the three-colour search returns a real cycle, and nothing exactly when there is none |
| `Dag.Visit` | src/alpha_orchestration/dag.py:292-305 | one visit either closes a cycle through the stack or finishes the node and restores the stack |
| `Dag.AppendReady` | src/alpha_orchestration/dag.py:275-281 | one turn of the loop keeps the ready heap equal to the ready tasks and the in-degrees equal to the open dependencies |
| `Dag.DependentsAreExact` | src/alpha_orchestration/dag.py:260-267 | the dependents of a task are exactly the tasks that name it, once each |
| `Dag.GreedyIsLeast` | src/alpha_orchestration/dag.py:275-281 | popping the least ready position yields the least of all topological orders |
| `Dag.PeelingAgrees` | src/alpha_orchestration/reducer.py:195-203 | the reducer's level peeling succeeds exactly on acyclic graphs |
| `Reducer.PlansAcyclicGraphs` | src/alpha_orchestration/reducer.py:153-203 | a properly named task list is planned exactly when it has no dependency cycle |
| `Reducer.PlanTasks` | src/alpha_orchestration/reducer.py:153-203 | the planning loops refuse exactly the lists the plan function refuses and build the same task table |
| `Reducer.StreamsKeepLaw` | src/alpha_orchestration/reducer.py:206-410 | over any accepted stream: a task past QUEUED that was not skipped has its dependencies ended (well, unless failures are allowed), ended tasks never change again, and a plan keeps its tasks |
| `Reducer.ReachableStatesAreLawful` | src/alpha_orchestration/reducer.py:206-410 | the same holds in every state reachable from the initial one |
| `Reducer.CompletionFreezesTasks` | src/alpha_orchestration/reducer.py:289-295 | after an accepted WORKFLOW_COMPLETED no event changes any task |
| `Histories.LegalIff` | src/alpha_orchestration/reducer.py:297-396 | a list of moves is legal for a fresh task exactly when each is one that may follow the one before |
| `Histories.TasksTellTheirHistories` | src/alpha_orchestration/reducer.py:297-396 | after any accepted stream a task's status, counters, output and error are those its own events tell: the last event's status, the numbers of turns and tool starts, the last output given, the last error not cleared since |
| `Histories.AgentsTellTheirHistories` | src/alpha_orchestration/reducer.py:398-475 | after any accepted stream an agent's status is what the last event that touched it says, and its tool calls and evidence are counted |
| `Histories.RunsTellTheirHistories` | src/alpha_orchestration/reducer.py:226-262 | after any accepted stream the run's status is that of the last event that sets one |
| `Histories.FreeTasksAcceptedIff` | src/alpha_orchestration/reducer.py:297-410 | events on tasks without dependencies are accepted in any interleaving exactly when each task's own events are legal |
| `Workload.EvaluationExists` | src/alpha_orchestration/fixed_dag.py:258-339 | the recursive evaluation of an acyclic workflow (skip when a dependency failed and failures are not allowed, else run on the dependency outcomes) has a solution |
| `Workload.EvaluationIsUnique` | src/alpha_orchestration/fixed_dag.py:258-339 | and only one |
| `SchedulerInvariant.InvariantAlways` | src/alpha_orchestration/fixed_dag.py:387-569 | every interleaving of the scheduler and its workers keeps the scheduler invariant: partition, agents, slots, FIFO queue, outcome table |
| `SchedulerTheorems.SafeAlways` | src/alpha_orchestration/fixed_dag.py:431-563 | in every reachable state running tasks fit the slots and never share an agent, the active agents are exactly the owners, each task is in one place, the deadlock raise is unreachable, and a wait for the queue means full slots or that every pending task is held by an unfinished dependency or a busy agent |
| `SchedulerTheorems.AlwaysAStep` | src/alpha_orchestration/fixed_dag.py:543-553 | until the run is over some coroutine can take a step |
| `SchedulerTheorems.StepsLessenWork` | src/alpha_orchestration/fixed_dag.py:431-563 | every effective step lowers a lexicographic measure |
| `SchedulerTheorems.PersistentSchedulesEnd` | src/alpha_orchestration/fixed_dag.py:431-563 | every schedule that may idle but in which an effective turn always comes again ends the run |
| `SchedulerTheorems.FairSchedulesEnd` | src/alpha_orchestration/fixed_dag.py:431-563 | every schedule that gives the scheduler and each task's worker a turn again and again ends the run |
| `SchedulerTheorems.FinishedIff` | src/alpha_orchestration/fixed_dag.py:387-569 | a run that is over has finished exactly when no task that runs raises, and otherwise stopped at one that does |
| `SchedulerTheorems.RunsEvaluate` | src/alpha_orchestration/fixed_dag.py:387-569 | a finished run has every task terminal and its outcome table is the evaluation; a run stops early only at a task whose body raises |
| `SchedulerTheorems.EndIsSettled` | src/alpha_orchestration/fixed_dag.py:387-569 | a run that is over finished exactly when every task of the evaluation ends |
| `SchedulerTheorems.Confluence` | src/alpha_orchestration/fixed_dag.py:387-569 | two runs that are over, under any interleavings and any slot counts, agree on finishing and on the outcome table |
| `SchedulerTheorems.PeakIsExact` | src/alpha_orchestration/fixed_dag.py:536-540 | the observed peak is the largest number of tasks at work at any moment |
| `Simulation.StartIsAllowed` | src/alpha_orchestration/reducer.py:316-326 | once a task's dependencies have ended, the reducer accepts its start exactly when the skip rule does not hold it back |
| `Simulation.SkippedIff` | src/alpha_orchestration/fixed_dag.py:463-485 | whatever the task bodies, a task that ended was skipped exactly when it tolerates no failures and a dependency failed or was skipped, and its outcome names exactly those, in order |
| `Simulation.AlwaysDecidesAsReducer` | src/alpha_orchestration/fixed_dag.py:434-490 | when the scan comes to a pending task: it passes on while a dependency is open; it skips the task exactly when the reducer would refuse its start; and otherwise full slots end the scan, a busy agent holds the task back, or it starts |
| `Simulation.EmissionsAccepted` | src/alpha_orchestration/fixed_dag.py:431-563 | whatever has been emitted under any interleaving, the reducer accepted it and its task table follows the scheduler's tables |
| `FixedDagStream.HeaderAccepted` | src/alpha_orchestration/fixed_dag.py:216-247 | registration and planning are accepted and leave the reducer in step with a scheduler that has not begun |
| `FixedDagStream.FooterAccepted` | src/alpha_orchestration/fixed_dag.py:343-383 | once every task has ended the closing events are accepted and change no task; every agent of the plan is left failed when one of its tasks failed or was skipped, and complete otherwise |
| `FixedDagStream.ConcurrentStreamAccepted` | src/alpha_orchestration/fixed_dag.py:216-256 | the stream up to any point of any interleaving is accepted, and every agent shows the last event of its tasks and has counted their tool calls |
| `Agents.StreamsTrack` | src/alpha_orchestration/reducer.py:398-410 | along any accepted stream of task events every agent shows the last event of its tasks and counts the tool calls of all of them |
| `WaitingAgents.WaitsAreShownIff` | src/alpha_orchestration/reducer.py:398-410 | in every state of every interleaving an agent shows that it waits for a tool exactly when one of its tasks does and the last event of its tasks is not a skip |
| `WaitingAgents.WaitsAreShown` | src/alpha_orchestration/reducer.py:398-410 | the wait of a task is always shown when no other task of its agent can be skipped |
| `WaitingAgents.SerialWaitsAreShown` | src/alpha_orchestration/fixed_dag.py:257-339 | in the serial loop every wait is shown, after every single event |
| `HiddenWait.WaitIsHidden` | src/alpha_orchestration/fixed_dag.py:463-485 | a run of the turn loop in which a task waits for a tool while its agent shows as running, because another task of the agent was skipped |
| `FixedDagStream.FinishedStreamAccepted` | src/alpha_orchestration/fixed_dag.py:216-383 | the whole stream of a finished run is accepted, and the reducer ends with the status, turns, tool calls, error and, unless the task failed, output of the runtime's own outcomes; a task is skipped exactly when it tolerates no failures and a dependency failed or was skipped, with an error naming just those; an agent is failed exactly when one of its tasks failed or was skipped and complete otherwise, and its tool calls are its tasks' together |
| `FixedDagStream.RunTask` | src/alpha_orchestration/fixed_dag.py:258-339 | one task of the serial loop emits its block of events and leaves its verdict in the table, or raises as its verdict says |
| `FixedDagStream.RunSerially` | src/alpha_orchestration/fixed_dag.py:257-339 | the serial loop computes the evaluation, or stops at a task whose body raises |
| `FixedDagStream.SerialStreamAccepted` | src/alpha_orchestration/fixed_dag.py:216-339 | the serial stream is accepted up to any task, with the same account of every agent |
| `FixedDagStream.FinishedSerialStreamAccepted` | src/alpha_orchestration/fixed_dag.py:216-383 | the serial stream is accepted to its last event with the same report on tasks and agents |
| `FixedDagStream.SerialAgreesWithConcurrent` | src/alpha_orchestration/fixed_dag.py:248-339 | if the serial loop finishes, every concurrent run that is over finished too, with the same outcome table |
| `FixedDagStream.RequiredFailures` | src/alpha_orchestration/fixed_dag.py:364-385 | the failures that make the stream raise at its end: exactly the required tasks that failed or were skipped |
| `TurnLoop.StreamTask` | src/alpha_orchestration/fixed_dag.py:571-1022 | the turn loop with its early returns plays the specified body of the task |
| `TurnLoop.RunCalls` | src/alpha_orchestration/fixed_dag.py:868-1019 | the tool calls of one turn, stopped by the first that does not succeed |
| `TurnLoop.TaskLoopSound` | src/alpha_orchestration/fixed_dag.py:613-1022 | for any model and tool behaviour: turns, started tools and repairs stay within budget, only allowed sources are kept and the reducer follows every event; an exception escapes exactly when a turn that is reached meets an answer that raises past the handlers, and otherwise the task ends COMPLETE, PARTIAL or FAILED, COMPLETE only with no degraded ancestry and PARTIAL only with one, with the loop's own counters, error and output |
| `TurnLoop.TaskTraceIsLawful` | src/alpha_orchestration/fixed_dag.py:613-1022 | the turn loop is a body that the simulation results apply to |
| `TurnLoop.Preflight` | src/alpha_orchestration/fixed_dag.py:1025-1094 | preflight passes exactly when every proposed call passes its checks, the missing tool contract included; otherwise it reports the refusal of the first call that does not |
| `TurnLoop.AllCallsOrNone` | src/alpha_orchestration/fixed_dag.py:829-866 | a turn with one refused call starts no tool |
| `Repairs.TurnFollowsTally` | src/alpha_orchestration/fixed_dag.py:613-1022 | one turn, read off the answer alone: an acceptable final action ends the task with its payload, a refusal that can be repaired keeps it running exactly when the rejections so far are below the repair budget and a turn is left, and everything else but completed calls fails it |
| `Repairs.AfterTurns` | src/alpha_orchestration/fixed_dag.py:613-1022 | after any number of turns that go on, tool calls, rejections and sources are those of the answers |
| `Repairs.FinalActionsEndWell` | src/alpha_orchestration/fixed_dag.py:772-827 | a task that reaches an acceptable final action ends COMPLETE, or PARTIAL with a degraded ancestry, with that payload, and with exactly the sources of its tool calls and its citations |
| `Repairs.SucceedsIff` | src/alpha_orchestration/fixed_dag.py:613-1022 | a task ends well exactly when all turns before some turn within the limit go on and that turn brings an acceptable final action |
| `Repairs.RepairsSufficeIff` | src/alpha_orchestration/fixed_dag.py:711-716 | k repairable refusals before an acceptable final action end well exactly when k is within the repair budget and below the turn limit |
| `Repairs.OutOfTurns` | src/alpha_orchestration/fixed_dag.py:613-1022 | turns that all go on until none is left fail the task |
| `Repairs.AnswersAreJournaled` | src/alpha_orchestration/fixed_dag.py:650-712 | every turn that no exception cuts short journals its request and the text of the answer |
| `Repairs.CallsAreJournaled` | src/alpha_orchestration/fixed_dag.py:868-1019 | every started tool is journaled with how it ended, and only a success passes on to the next call |
| `Repairs.RejectionsAreJournaled` | src/alpha_orchestration/fixed_dag.py:711-760 | a rejected answer is journaled with its reason, which is also the error of the task it fails |
| `Provenance.FixedDagBodyIsSound` | src/alpha_orchestration/fixed_dag.py:571-1022 | the turn loop, against any models and tools, is a lawful body that respects its sources and its degraded ancestry |
| `TurnLoop.CalmScriptsDoNotRaise` | src/alpha_orchestration/fixed_dag.py:650-921 | when no answer of a model or tool raises past the handlers, no exception escapes |
| `Provenance.FixedDagRunsFinishIff` | src/alpha_orchestration/fixed_dag.py:420-563 | a run that is over has finished exactly when no task that runs meets an answer that raises past the handlers, and otherwise stopped at such a task |
| `Provenance.FixedDagRunsFinish` | src/alpha_orchestration/fixed_dag.py:571-1022 | the condition a caller can see to: with models and tools that never answer so, every run that is over has finished all its tasks |
| `Provenance.EscapeAbortsRun` | src/alpha_orchestration/fixed_dag.py:650-653 | a run that such an answer aborts, with the turn loop as its body |
| `Provenance.SkippedExactly` | src/alpha_orchestration/fixed_dag.py:463-485 | with the turn loop, a task that ended was skipped exactly when it tolerates no failures and a dependency failed or was skipped |
| `Provenance.AllowedSourcesAreExact` | src/alpha_orchestration/fixed_dag.py:1540-1548 | a task may cite exactly its direct evidence and the sources its dependencies used |
| `Provenance.CompleteAllTheWay` | src/alpha_orchestration/fixed_dag.py:447-462 | a COMPLETE task has only COMPLETE ancestors along every dependency path |
| `Provenance.DegradedAncestryIsExact` | src/alpha_orchestration/fixed_dag.py:452-462 | the degraded ancestry of a task that ran names exactly the incomplete ancestors reachable through tasks that were not skipped |
| `Provenance.PartialIff` | src/alpha_orchestration/fixed_dag.py:779-801 | a task that ended well is PARTIAL exactly when some ancestor did not complete |
| `Provenance.SkipHidesItsCause` | src/alpha_orchestration/fixed_dag.py:463-467 | the ancestry is not the set of all bad ancestors: with bodies the turn loop itself plays, behind a skip the failure that caused it is not named |
| `Provenance.SourcesComeFromEvidence` | src/alpha_orchestration/fixed_dag.py:1540-1548 | every source of an ended task is direct evidence of that task or of one of its ancestors |
| `Controller.LivesAreFaithful` | src/alpha_orchestration/controller.py:42-59 | after any sequence of operations, refused drafts included, the state is the fold of the journal, events are numbered from zero, a run-terminal event stands only last and exactly when the run is over, and the recent events are the last eighty |
| `Controller.JournalsOnlyGrow` | src/alpha_orchestration/controller.py:42-59 | a journal is only extended, and never again once it is closed or the run is over |
| `Controller.ReplayRebuilds` | src/alpha_orchestration/journal.py:302-315 | replaying a controller's journal rebuilds its state exactly when the controller was started |
| `Controller.EarlyCancellationCannotReplay` | src/alpha_orchestration/controller.py:131-139 | the excluded case: a run cancelled before its start leaves a journal that replay refuses |
| `Controller.PauseAndResume` | src/alpha_orchestration/controller.py:119-129 | a pause and a resumption touch no task and no agent, and restore the run's status exactly when it was running |
| `Controller.DrivesEndRuns` | src/alpha_orchestration/controller.py:83-117 | the end of a drive closes the journal and ends the run, except when a requested cancellation met a stream that simply ended, or when what was raised is seen by the `finally` clause alone |
| `Controller.DrivesAreLives` | src/alpha_orchestration/controller.py:83-117 | a drive, whatever others do between its drafts, is a sequence of operations, so all that holds of lives holds of it |
| `Controller.FixedDagRunsReplay` | src/alpha_orchestration/controller.py:83-129 | from start to end: a finished fixed-DAG run under any interleaving, paused and resumed at any points, is journaled without a refusal; but for the pauses the journal holds exactly the start, what the runtime yielded and one ending event, which completes the run exactly when no required task failed; and it replays to the runtime's verdict on every task (status, counters, error and, unless it failed, output) and to agents that are failed or complete as their tasks are |
| `Controller.BrokenRunsReplay` | src/alpha_orchestration/controller.py:83-117 | a stream that breaks off at any point of any interleaving is journaled to that point, ends as what was raised decides, and replays to a task table in step with the scheduler's |
| `Controller.FixedDagAlwaysReplays` | src/alpha_orchestration/controller.py:83-129 | with the turn loop as the tasks' body every run that is over is journaled and replays: to its end when no task that runs meets an answer that raises past the handlers, and otherwise up to the task where one did |
| `Controller.ReplayJournal` | src/alpha_orchestration/journal.py:302-315 | the replay loop refuses an empty journal or one that does not begin with RUN_CREATED, and otherwise folds it up to the first refused event |
| `Controller.MemoryJournal.Append` | src/alpha_orchestration/journal.py:234-237 | an open journal takes the event at its end, a closed one refuses and keeps its events |
| `Controller.RunController.PublishDraft` | src/alpha_orchestration/controller.py:42-59 | a draft is reduced, appended and only then adopted; a refusal leaves state and journal as they were |
| `Controller.RunController.StartRun` | src/alpha_orchestration/controller.py:61-71 | the first start publishes RUN_CREATED with the controller's own spec, a second one is refused |
| `Controller.RunController.PauseRun` | src/alpha_orchestration/controller.py:119-123 | a pause is published only while running or synthesizing |
| `Controller.RunController.ResumeRun` | src/alpha_orchestration/controller.py:125-129 | a resumption is published only while paused |
| `Controller.RunController.CancelRun` | src/alpha_orchestration/controller.py:131-141 | before the start a cancellation is published and closes the journal, later it is a request |
| `Controller.RunController.EndDriving` | src/alpha_orchestration/controller.py:97-117 | the end of the drive publishes the one event its ending calls for and closes the journal |
| `Controller.RunController.Drive` | src/alpha_orchestration/controller.py:83-117 | the drive leads to the life its drafts, its ending and the pauses, resumptions and cancellations between the drafts determine; a cancellation requested midway stops it before the next draft |
| `Waves.AnalysisWaves` | src/alpha_orchestration/automatic_runtime.py:789-814 | the wave loops fail only for want of slots, never for want of progress, and otherwise compute the schedule |
| `Waves.ScheduleIsSound` | src/alpha_orchestration/automatic_runtime.py:789-814 | waves are non-empty, within the limit and lane-exclusive, and together hold every issuer exactly once |
| `Waves.LanesKeepOrder` | src/alpha_orchestration/automatic_runtime.py:789-814 | each lane's issuers are screened in their given order |
| `Waves.WaveBound` | src/alpha_orchestration/automatic_runtime.py:789-814 | the waves number at most one per limit issuers plus the largest lane load |
| `Waves.WavesAreFew` | src/alpha_orchestration/automatic_runtime.py:789-814 | hence at most twice what any admissible schedule needs, and exactly the largest lane load when the limit covers the lanes |
| `Waves.GreedyIsOptimalIff` | src/alpha_orchestration/automatic_runtime.py:789-814 | over all issuers on at most n lanes the waves are always the fewest exactly with one slot or at least n |
| `ScreenIntervals.VerifyScreenIntervals` | src/alpha_orchestration/automatic_harness.py:200-259 | the checking loop returns the verdict of the event-by-event check, with the same fault for the same event |
| `ScreenIntervals.AcceptedJournalsAreBounded` | src/alpha_orchestration/automatic_harness.py:200-259 | in an accepted journal the screens running at any point are at most the reported peak, at most eight, each on its own lane, and none is left at the end |
| `ScreenIntervals.PeakIsReached` | src/alpha_orchestration/automatic_harness.py:235-238 | the reported peak is the number of screens running at some point |
| `ScreenIntervals.StartedOnce` | src/alpha_orchestration/automatic_harness.py:227-228 | no screen starts twice in an accepted journal |
| `ScreenIntervals.OtherEventsDoNotMatter` | src/alpha_orchestration/automatic_harness.py:218-221 | events that name no screen task change nothing |
| `ScreenIntervals.AcceptedIff` | src/alpha_orchestration/automatic_harness.py:200-259 | a journal is accepted exactly when every event fits what came before it, told from the journal alone, and nothing is left running |
| `ScreenIntervals.EmitScreen` | src/alpha_orchestration/automatic_runtime.py:266-299 | the loops over batches, their failures and the waves emit the specified screen events, each batch tested against its own issuers |
| `ScreenIntervals.BatchesAsOne` | src/alpha_orchestration/automatic_runtime.py:279-282 | when no ticker is asked for twice, the failures of all batches are the tickers asked for that no batch brought evidence of |
| `ScreenIntervals.EmitWave` | src/alpha_orchestration/automatic_runtime.py:363-479 | one wave emits every start before any result, each result with its tool end and its task end |
| `ScreenIntervals.EmissionsAreAccepted` | src/alpha_orchestration/automatic_runtime.py:363-479 | for any batches, collection failures and analysis results the checker accepts the journal and returns the largest wave size, or one when only collection failures ran |
| `ScreenOutcomes.ScreensEndAsAnalysed` | src/alpha_orchestration/automatic_runtime.py:266-479 | published from a planned and queued workflow the screen's events are accepted, and leave each ready member's task complete with its output, partial with its gaps as the error when it has gaps, or failed with the error its calculation raised, and the task of each ticker without evidence failed with its reason; no other task is touched |
| `ScreenOutcomes.JournalsEndAsAnalysed` | src/alpha_orchestration/automatic_runtime.py:266-479 | the same of every accepted journal whose screen events are those, whatever other events stand between them |
| `ScreenIntervals.TaskIdsAreDistinct` | src/alpha_orchestration/automatic_projection.py:212-213 | a screen task's name determines its index whatever the ticker |
| `ScreenIntervals.ManifestPlansAreValid` | src/alpha_orchestration/automatic_runtime.py:213-214 | the lanes and task names of every manifest meet what acceptance needs |
| `ManifestWaves.FewestWavesIff` | src/alpha_orchestration/automatic_runtime.py:789-814 | over all ready members of a manifest the waves are always the fewest exactly with one slot, with eight or more, or when the manifest has at most eight members more than there are slots |
| `ManifestWaves.CrowdTakesThree` | src/alpha_orchestration/automatic_runtime.py:213-214 | the failing ready sets: the first members, one more than there are slots, and the next on the last of their lanes take three waves, and two suffice |
| `ManifestWaves.EightSlotsAreOptimal` | src/alpha_orchestration/automatic_runtime.py:789-814 | with eight slots or more no admissible schedule has fewer waves, whatever the order |
| `Ledger.CollisionIsExact` | src/alpha_orchestration/data/ledger.py:146-153 | a batch is refused exactly when one of its records differs from the stored record with its ID |
| `Ledger.IngestJoins` | src/alpha_orchestration/data/ledger.py:155-166 | an accepted batch adds its records and changes no stored one |
| `Ledger.LedgersAreSound` | src/alpha_orchestration/data/ledger.py:141-166 | after any sequence of batches both index maps list exactly the stored observations under each key, and every cited evidence record is stored |
| `Ledger.IngestIsIdempotent` | src/alpha_orchestration/data/ledger.py:141-166 | ingesting an accepted batch again changes nothing |
| `Ledger.SecondCollides` | src/alpha_orchestration/data/ledger.py:146-153 | after one batch another collides exactly when it collided before or disagrees with the first |
| `Ledger.BatchesCommute` | src/alpha_orchestration/data/ledger.py:141-166 | one order of two batches succeeds when the other does, and leaves the same ledger, indexes included |
| `Ledger.PacketsAreExact` | src/alpha_orchestration/data/ledger.py:213-252 | a packet holds exactly the requested observations and the evidence they cite, each in its declared order, its constructor's checks cannot fail, and the request is refused exactly when malformed, unknown or over a limit |
| `Ledger.RefusalsAreOrdered` | src/alpha_orchestration/data/ledger.py:213-252 | which refusal a request meets, by the first requirement it fails |
| `Ledger.ObservationLedger.IngestBatch` | src/alpha_orchestration/data/ledger.py:141-166 | a colliding batch reports the first collision and changes nothing, any other is absorbed |
| `Ledger.ObservationLedger.Select` | src/alpha_orchestration/data/ledger.py:189-211 | selection through an index returns exactly the stored observations of that entity, name and period, in the order of their fields, each field compared in turn |
| `Ledger.ObservationLedger.SortedRecords` | src/alpha_orchestration/data/ledger.py:206-211 | the sorted records do not depend on the order in which the ID set is read |
| `Ledger.ObservationLedger.EvidencePacket` | src/alpha_orchestration/data/ledger.py:213-252 | a packet built by a valid ledger is exact |
| `Universe.ParseMarketPage` | src/alpha_orchestration/data/universe.py:646-706 | a readable page is split into rows and exclusions, an unreadable one refused |
| `Universe.PageConserves` | src/alpha_orchestration/data/universe.py:659-706 | every quote of a page is a row or an exclusion under its safe ticker, with multiplicity |
| `Universe.PageRowsAreExact` | src/alpha_orchestration/data/universe.py:659-705 | a page's rows are exactly its quotes that are equities on an admitted exchange with cap, price and volume at or above the thresholds |
| `Universe.PageExclusionsAreExact` | src/alpha_orchestration/data/universe.py:672-692 | a page's exclusions name the first fault, in the declared order, of each other quote |
| `Universe.EligibleRows` | src/alpha_orchestration/data/universe.py:709-764 | the three loops compute the eligible share classes and the exclusions of the others |
| `Universe.EligibleConserves` | src/alpha_orchestration/data/universe.py:709-764 | every row is an eligible share class or an exclusion of its ticker, with multiplicity |
| `Universe.ExclusionsTellWhy` | src/alpha_orchestration/data/universe.py:714-764 | a ticker is excluded as duplicate row, missing identity, exchange outside the policy or duplicate issuer exactly when that is so of it |
| `Universe.EligibleIsExact` | src/alpha_orchestration/data/universe.py:745-764 | a share class is kept exactly when it is the best row of an admitted ticker and no share class of the same issuer has a larger market cap, or an equal one and a smaller ticker |
| `Universe.EligibleIsOrdered` | src/alpha_orchestration/data/universe.py:745-764 | kept share classes are unique by ticker and issuer, in rank order, and every candidate's issuer is kept |
| `Universe.BestIsLargest` | src/alpha_orchestration/data/universe.py:716-724 | the row kept for a ticker has the largest market cap of its rows, and on equal caps the greatest source hash |
| `Universe.MembersAreProper` | src/alpha_orchestration/data/universe.py:494-524 | members are the first eligible share classes up to the target, unique by ticker and issuer, each from a retained page, and whatever is left out ranks later; every member meets the policy's kind, exchange, cap, price and volume thresholds |
| `Universe.ManifestConserves` | src/alpha_orchestration/data/universe.py:494-504 | quotes fetched equal members plus exclusions, ticker by ticker and in number |
| `Universe.ManifestTellsWhy` | src/alpha_orchestration/data/universe.py:494-504 | the exclusions give exactly the reasons that hold: the first fault of a quote, a repeated row, a missing or foreign identity, a share class that is not its issuer's best, or an issuer's best class beyond the target |
| `Universe.MembersAreSeen` | src/alpha_orchestration/data/universe.py:316-324 | the manifest's first coverage check cannot fail |
| `Universe.FetchPages` | src/alpha_orchestration/data/universe.py:472-492 | pages are asked for one after the other while too few rows are eligible, the last page had rows and the total lies beyond; a refusal means that a page so asked for had no quotes list, no total or a conflicting one, as its error says |
| `Universe.PagesAreFew` | src/alpha_orchestration/data/universe.py:472-492 | the k-th request starts at k page sizes, below the screening limit, and all pages but the last are asked for in full size |
| `Universe.Discover` | src/alpha_orchestration/data/universe.py:462-540 | the result is paging's refusal, or what the fetched pages decide: a member with a bad currency, counts over the reported total, too few members, or else the manifest; a manifest, returned or reported as too small, has proper members and accounts for every quote, and its lineage check cannot fail |
| `Universe.MakeManifest` | src/alpha_orchestration/data/universe.py:494-540 | selection and the constructor's checks reach exactly that decision |
| `Universe.DiscoveryIsDetermined` | src/alpha_orchestration/data/universe.py:472-540 | the market's answers leave one result: a refusal and an end of paging exclude each other, and each is unique |
| `Universe.RetainedCountsAccount` | src/alpha_orchestration/data/universe.py:767-774 | the retained row count is members plus exclusions when no page carries a "data" list |
| `Ranking.PercentileScores` | src/alpha_orchestration/calculations/ranking.py:120-139 | the tie-group loop gives every value the number of better values plus half of one more than the number of equal ones, and the percentile of that rank |
| `Ranking.ScoreGroups` | src/alpha_orchestration/calculations/ranking.py:128-139 | the nested loops fill both tables group by group over the sorted values |
| `Ranking.RanksSum` | src/alpha_orchestration/calculations/ranking.py:132-138 | however values tie, the ranks of n values sum to n(n+1)/2 |
| `Ranking.DirectionsComplement` | src/alpha_orchestration/calculations/ranking.py:134-134 | higher and lower scores of an entity sum to 100 exactly when at least two values are observed |
| `Ranking.PercentileInRange` | src/alpha_orchestration/calculations/ranking.py:132-138 | ranks lie between 1 and n and scores between 0 and 100 |
| `Ranking.PercentileMonotone` | src/alpha_orchestration/calculations/ranking.py:120-139 | a value at least as good never scores lower |
| `Ranking.CompositeInRange` | src/alpha_orchestration/calculations/ranking.py:69-77 | composites stay between 0 and 100 under every missing-data policy |
| `Ranking.CompositeIsWeightedMean` | src/alpha_orchestration/calculations/ranking.py:69-77 | a composite times the sum of the weights is the weighted sum of the scores |
| `Ranking.BestScoresHundred` | src/alpha_orchestration/calculations/ranking.py:120-139 | a best value without ties scores 100 |
| `Ranking.WorstScoresNothing` | src/alpha_orchestration/calculations/ranking.py:120-139 | a worst value without ties, unless alone, scores 0 |
| `Ranking.MissingIsWorst` | src/alpha_orchestration/calculations/ranking.py:62-64 | under the "worst" policy a missing value scores no more than any observed one, and the same as a unique worst one |
| `Ranking.NeutralIsTheMean` | src/alpha_orchestration/calculations/ranking.py:62-64 | the neutral score of a missing value is the mean of the observed scores |
| `Ranking.RankedRowsAreBestFirst` | src/alpha_orchestration/calculations/ranking.py:101-101 | the ranked list holds exactly the eligible rows under their rounded composites, best first and then by ID |
| `Ranking.CompositeMonotone` | src/alpha_orchestration/calculations/ranking.py:52-77 | an entity at least as good on every criterion never has a lower composite |
| `Ranking.RankingIgnoresInputOrder` | src/alpha_orchestration/calculations/ranking.py:101-101 | the ranked list does not depend on the order of the input rows |
| `Ranking.RankEntities` | src/alpha_orchestration/calculations/ranking.py:16-117 | the accepted requests are exactly the valid ones; rows come by falling rounded composite and, on equality, in text order of their IDs; every row returned carries its own rounded composite; every input row is returned, left out behind rows at least as good, or excluded for a missing metric; and the counts add up |
| `Forecasts.DiscountedCashFlow` | src/alpha_orchestration/calculations/forecasts.py:129-210 | accepts exactly the valid arguments; enterprise value is the sum of the discounted flows and terminal value, equity is that less net debt, and per-share value times the shares gives equity back |
| `Forecasts.HorizonInvariance` | src/alpha_orchestration/calculations/forecasts.py:269-307 | appending the cash flow that terminal growth implies leaves enterprise value unchanged, with either timing |
| `Forecasts.ConstantGrowthWorth` | src/alpha_orchestration/calculations/forecasts.py:170-205 | a series growing at the terminal rate is worth its first flow over the spread, for every horizon (times the root of the discount base with mid-year timing) |
| `Forecasts.MidYearScalesValue` | src/alpha_orchestration/calculations/forecasts.py:372-378 | mid-year enterprise value is the root of the discount base times the end-of-period one, for both terminal methods |
| `Forecasts.ExitIsALargerLastFlow` | src/alpha_orchestration/calculations/forecasts.py:269-307 | an exit at a multiple is worth a last cash flow larger by the multiple times the given metric, or times the last cash flow when none is given |
| `Forecasts.MethodsAgreeIff` | src/alpha_orchestration/calculations/forecasts.py:269-307 | the two terminal methods value alike exactly when the multiple is the growing perpetuity's own or the last cash flow is zero |
| `Forecasts.ForecastScenario` | src/alpha_orchestration/calculations/forecasts.py:80-96 | the value after each period is the base compounded at the rates so far |
| `Forecasts.CompoundRateIsConstantRate` | src/alpha_orchestration/calculations/forecasts.py:98-99 | for a constant growth rate the compound rate is that rate |

## Left out

- Models, tools and analysis functions are arbitrary but determined by what they are asked: a task body depends on its task and its dependency outcomes only, so a model session that remembers earlier tasks of the same agent is not modelled.
- A worker's changes to its outcome record are seen one queued event at a time; the scheduler reads the record only after the worker's finish message.
- The gate and the wake-up order of coroutines: any operations may stand between two drafts of a drive, and an interruption is a stream that ends early; that a paused drive waits is not stated.
- The number of slots is at least one and the workflow's own limit is already applied; budgets of tokens and bytes and the check of the agent budget are not modelled.
- Progress percentages, stages, candidate and evidence fields, messages, timestamps and error texts of the run state; of a stage, evidence or candidate event only whether its payload is well formed.
- Names and payload strings are taken as already stripped; output values are opaque text.
- Observation binding of tool arguments and JSON schema validation: their results are part of what a script of model and tool answers says.
- The integrity hashes of lifecycle payloads, canonical JSON, files and the JSONL journal: a journal is a sequence of events, a content hash an opaque string, and the encoded size of an evidence packet a function of the packet.
- An exception strikes a turn before its request, before the answer is journaled or while the answer is read, and a tool call before its start, before its result or after its rejection; one that strikes while a failure event is being built is not told apart.
- Subscribers, the TUI, the command line, the demo and KernelCubed adapters, the SEC and yfinance clients and the cache.
- Optional model diligence in the automatic runtime, the ranking validator and the coverage gate; their events name no screen task and so cannot change the checker's verdict.
- Why a ticker's collection failed is a function of the ticker; the evidence and progress events of a batch name no screen task.
- Parsing of the SEC exchange map, of raw quote fields and of policy arguments; exchange names stand in case-folded form, and identities are indexed by their own tickers.
- The order of a manifest's exclusions and their detail texts.
- Rounding and floating point: rounding is any function on reals, square roots and the n-th root of a compound rate are values that satisfy their defining equations.
- Growth forecast validation, labels, units and the schedules that repeat computed values.
- Unicode white space in ledger lookups: padding is judged by the ASCII blanks.
- The metrics catalogue, market statistics, the calculator and the remaining calculations would add only branch-by-branch facts.
