/** Run events and run state (domain.py, ports.py), as far as the reducer's checks depend on them. */
module Events {
  import opened Common
  import Dag

  datatype TaskStatus = Queued | Running | WaitingModel | WaitingTool | Complete | Partial | Failed | Skipped {
    predicate Success() { Complete? || Partial? }
    predicate Terminal() { Success() || Failed? || Skipped? }
    predicate Active() { Running? || WaitingModel? || WaitingTool? }
    predicate Bad() { Failed? || Skipped? }
  }

  datatype AgentStatus = AgentQueued | AgentRunning | AgentWaitingTool | AgentComplete | AgentCancelled | AgentFailure

  datatype RunStatus = Idle | Planning | RunningRun | Paused | Synthesizing | RunComplete | Cancelled | RunFailure {
    predicate Terminal() { RunComplete? || Cancelled? || RunFailure? }
  }

  /** What a task event does to the task it names. Outputs are opaque JSON text. */
  datatype Move =
    | Start
    | TurnStart
    | TurnDone(output: Option<string>)
    | Reject(output: Option<string>, error: string)
    | ToolStart
    | ToolDone
    | ToolReject(error: string)
    | ToolFail(error: string)
    | Finish(partial: bool, output: Option<string>, note: Option<string>)
    | Fail(output: Option<string>, error: string)
    | Skip(reason: string)

  datatype Payload =
    | RunCreated(spec: RunSpec)
    | RunStarted
    | RunPaused
    | RunResumed
    | RunSynthesizing
    | RunCompleted
    | RunCancelled
    | RunFailed(error: string)
    | StageStarted(known: bool)
    | StageCompleted(known: bool)
    | WorkflowPlanned(workflowId: string, version: string, planned: seq<Dag.Task>)
    | WorkflowCompleted
    | OnTask(taskId: string, move: Move)
    | LaneTool(move: Move)
    | AgentRegistered(role: string, lane: string)
    | AgentStarted
    | AgentProgress
    | AgentCompleted
    | AgentFailed
    | EvidenceAdded(wellFormed: bool)
    | CandidateUpdated(wellFormed: bool)

  /** An unsequenced runtime event. */
  datatype Draft = Draft(agent: Option<string>, payload: Payload)

  datatype Event = Event(schema: int, runId: string, sequence: int, draft: Draft)

  datatype RunSpec = RunSpec(runId: string, agentBudget: nat, activeSlots: nat)

  datatype AgentState = AgentState(role: string, lane: string, status: AgentStatus, toolCalls: nat, evidence: nat)

  datatype TaskState = TaskState(
    id: string,
    agent: string,
    deps: seq<string>,
    required: bool,
    allowFailed: bool,
    status: TaskStatus,
    turns: nat,
    toolCalls: nat,
    output: Option<string>,
    error: Option<string>)

  datatype RunState = RunState(
    spec: RunSpec,
    status: RunStatus,
    agents: map<string, AgentState>,
    workflow: Option<string>,
    tasks: map<string, TaskState>,
    recent: seq<Event>,
    lastSequence: int,
    failure: Option<string>)

  function InitialState(spec: RunSpec): RunState {
    RunState(spec, Idle, map[], None, map[], [], -1, None)
  }
}
