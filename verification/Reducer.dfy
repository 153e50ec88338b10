/** The event reducer (reducer.py): one verified event turns a run state into the next one or is
    refused. What every accepted stream keeps is proved at the end. */
module Reducer {
  import opened Common
  import opened Events
  import Dag

  /** The reasons of `StateInvariantError`. */
  datatype Violation =
    | UnsupportedSchema | WrongRun | OutOfSequence | AfterTheEnd | BadPayload | UnknownAgent | DuplicateAgent
    | UnknownTask | WrongOwner | BadTransition | Blocked | AlreadyPlanned | NotPlanned | BadPlan | UnfinishedTasks

  type Reduced = Result<RunState, Violation>

  const SCHEMA := 1
  const RECENT := 80

  // ---------- One task ----------

  function FreshTask(t: Dag.Task): TaskState {
    TaskState(t.id, t.agent, t.deps, t.required, t.allowFailed, Queued, 0, 0, None, None)
  }

  /** The statuses from which `_transition` lets a move happen. */
  predicate MoveAllowed(status: TaskStatus, m: Move) {
    match m
    case Start => status.Queued?
    case Skip(_) => status.Queued?
    case TurnDone(_) => status.WaitingModel?
    case ToolDone => status.WaitingTool?
    case ToolReject(_) => status.WaitingTool?
    case ToolFail(_) => status.WaitingTool?
    case Fail(_, _) => status.Active()
    case _ => status.Running?
  }

  function OrElse(value: Option<string>, default: Option<string>): Option<string> {
    if value.Some? then value else default
  }

  function Moved(t: TaskState, m: Move): TaskState {
    match m
    case Start => t.(status := Running, error := None)
    case TurnStart => t.(status := WaitingModel, turns := t.turns + 1, error := None)
    case TurnDone(output) => t.(status := Running, output := OrElse(output, t.output), error := None)
    case Reject(output, error) => t.(output := OrElse(output, t.output), error := Some(error))
    case ToolStart => t.(status := WaitingTool, toolCalls := t.toolCalls + 1, error := None)
    case ToolDone => t.(status := Running, error := None)
    case ToolReject(error) => t.(status := Running, error := Some(error))
    case ToolFail(error) => t.(status := Running, error := Some(error))
    case Finish(partial, output, note) =>
      t.(status := if partial then Partial else Complete,
         output := OrElse(output, t.output),
         error := if note.Some? then note else if partial then t.error else None)
    case Fail(output, error) => t.(status := Failed, output := OrElse(output, t.output), error := Some(error))
    case Skip(reason) => t.(status := Skipped, error := Some(reason))
  }

  /** A dependency that lets its dependent start: ended, and ended well unless failures are allowed. */
  predicate Clears(tasks: map<string, TaskState>, t: TaskState, d: string) {
    d in tasks && (if t.allowFailed then tasks[d].status.Terminal() else tasks[d].status.Success())
  }

  predicate DependenciesAllow(tasks: map<string, TaskState>, t: TaskState) {
    forall d :: d in t.deps ==> Clears(tasks, t, d)
  }

  function ReduceTask(s: RunState, agent: Option<string>, taskId: string, m: Move): Reduced {
    if taskId == "" then Err(BadPayload)
    else if taskId !in s.tasks then Err(UnknownTask)
    else
      var t := s.tasks[taskId];
      if agent.Some? && agent.value != t.agent then Err(WrongOwner)
      else if !MoveAllowed(t.status, m) then Err(BadTransition)
      else if m.Start? && !DependenciesAllow(s.tasks, t) then Err(Blocked)
      else Ok(s.(tasks := s.tasks[taskId := Moved(t, m)], agents := TouchOwner(s.agents, t.agent, m.ToolStart?)))
  }

  function TouchOwner(agents: map<string, AgentState>, id: string, calling: bool): map<string, AgentState> {
    if id !in agents then agents
    else agents[id := agents[id].(
      status := if calling then AgentWaitingTool else AgentRunning,
      toolCalls := agents[id].toolCalls + (if calling then 1 else 0))]
  }

  // ---------- The plan ----------

  predicate Plannable(ts: seq<Dag.Task>) {
    && ts != []
    && (forall t :: t in ts ==> t.id != "" && t.agent != "" && "" !in t.deps)
    && Dag.WellFormed(ts)
    && Dag.Peels(Dag.TasksById(ts), Dag.TasksById(ts).Keys)
  }

  function PlannedTasks(ts: seq<Dag.Task>): Result<map<string, TaskState>, Violation> {
    if Plannable(ts) then
      var g := Dag.TasksById(ts);
      Ok(map id | id in g :: FreshTask(g[id]))
    else Err(BadPlan)
  }

  /** What the loop of `_planned_tasks` checks of one task, given those before it. */
  predicate WellNamed(t: Dag.Task) {
    t.id != "" && t.agent != "" && "" !in t.deps && Unique(t.deps)
  }

  ghost predicate Collected(ts: seq<Dag.Task>, tasks: map<string, TaskState>) {
    && Unique(Dag.Names(ts)) && tasks.Keys == Elements(Dag.Names(ts))
    && forall i :: 0 <= i < |ts| ==> CollectedAt(ts[i], tasks)
  }

  predicate CollectedAt(t: Dag.Task, tasks: map<string, TaskState>) {
    WellNamed(t) && t.id in tasks && tasks[t.id] == FreshTask(t)
  }

  lemma CollectedOneMore(ts: seq<Dag.Task>, tasks: map<string, TaskState>, t: Dag.Task)
    requires Collected(ts, tasks)
    ensures t.id !in tasks && WellNamed(t) ==> Collected(ts + [t], tasks[t.id := FreshTask(t)])
    ensures t.id in tasks ==> !Unique(Dag.Names(ts + [t]))
  {
    var names, longer := Dag.Names(ts), Dag.Names(ts + [t]);
    assert longer == names + [t.id];
    if t.id in tasks {
      assert t.id in names;
      var i :| 0 <= i < |names| && names[i] == t.id;
      assert !Differ(longer, i, |names|);
    } else {
      UniqueAppend(names, t.id);
      forall i | 0 <= i < |ts| + 1 ensures WellNamed(t) ==> CollectedAt((ts + [t])[i], tasks[t.id := FreshTask(t)]) {
        if i < |ts| { assert CollectedAt(ts[i], tasks); }
      }
    }
  }

  lemma NamesOfPrefix(ts: seq<Dag.Task>, n: nat)
    requires n <= |ts| && Unique(Dag.Names(ts))
    ensures Unique(Dag.Names(ts[..n]))
  {
    forall i, j | 0 <= i < j < n ensures Differ(Dag.Names(ts[..n]), i, j) { assert Differ(Dag.Names(ts), i, j); }
  }

  method CollectTasks(ts: seq<Dag.Task>) returns (r: Option<map<string, TaskState>>)
    ensures r.Some? ==> Collected(ts, r.value)
    ensures r.None? ==> !Unique(Dag.Names(ts)) || exists t :: t in ts && !WellNamed(t)
  {
    var tasks: map<string, TaskState> := map[];
    for i := 0 to |ts|
      invariant Collected(ts[..i], tasks)
    {
      var t := ts[i];
      assert ts[..i + 1] == ts[..i] + [t];
      CollectedOneMore(ts[..i], tasks, t);
      if t.id in tasks {
        if Unique(Dag.Names(ts)) { NamesOfPrefix(ts, i + 1); }
        return None;
      }
      if t.id == "" || t.agent == "" || "" in t.deps || !Unique(t.deps) { return None; }
      tasks := tasks[t.id := FreshTask(t)];
    }
    assert ts[..|ts|] == ts;
    return Some(tasks);
  }

  /** `while pending` in `_planned_tasks` */
  method PeelTasks(ghost g: Dag.Graph, tasks: map<string, TaskState>) returns (acyclic: bool)
    requires g.Keys == tasks.Keys && forall id :: id in g ==> tasks[id].deps == g[id].deps
    ensures acyclic == Dag.Peels(g, g.Keys)
  {
    var pending := tasks.Keys;
    while pending != {}
      invariant pending <= g.Keys && Dag.Peels(g, pending) == Dag.Peels(g, g.Keys)
      decreases pending
    {
      var ready := set id | id in pending && forall d :: d in tasks[id].deps ==> d !in pending;
      assert ready == set id | id in pending && forall d :: d in g[id].deps ==> d !in pending;
      if ready == {} { return false; }
      pending := pending - ready;
    }
    return true;
  }

  lemma CollectedTasks(ts: seq<Dag.Task>, tasks: map<string, TaskState>)
    requires Collected(ts, tasks)
    ensures Dag.WellFormed(ts) <==> forall id :: id in tasks ==> Elements(tasks[id].deps) <= tasks.Keys
    ensures Dag.WellFormed(ts) ==> var g := Dag.TasksById(ts);
      g.Keys == tasks.Keys && forall id :: id in g ==> tasks[id] == FreshTask(g[id])
    ensures forall t :: t in ts ==> WellNamed(t)
  {
    forall id | id in tasks ensures exists i :: 0 <= i < |ts| && ts[i].id == id && CollectedAt(ts[i], tasks) {
      var i :| 0 <= i < |ts| && Dag.Names(ts)[i] == id;
      assert CollectedAt(ts[i], tasks);
    }
    forall i | 0 <= i < |ts|
      ensures Dag.KnownDependencies(ts, ts[i].deps) <==> Elements(tasks[ts[i].id].deps) <= tasks.Keys
    {
      assert CollectedAt(ts[i], tasks);
    }
  }

  /** `_planned_tasks` with its loops: the same plans, and the same refusals. */
  method PlanTasks(ts: seq<Dag.Task>) returns (r: Result<map<string, TaskState>, Violation>)
    ensures r == PlannedTasks(ts)
  {
    if ts == [] { return Err(BadPlan); }
    var collected := CollectTasks(ts);
    if collected.None? { return Err(BadPlan); }
    var tasks := collected.value;
    CollectedTasks(ts, tasks);
    if exists id :: id in tasks && !(Elements(tasks[id].deps) <= tasks.Keys) { return Err(BadPlan); }
    var acyclic := PeelTasks(Dag.TasksById(ts), tasks);
    if !acyclic { return Err(BadPlan); }
    assert tasks == PlannedTasks(ts).value;
    return Ok(tasks);
  }

  // ---------- Agents ----------

  function ReduceAgent(s: RunState, agent: Option<string>, change: AgentState -> AgentState): Reduced {
    if agent.None? then Err(BadPayload)
    else if agent.value !in s.agents then Err(UnknownAgent)
    else Ok(s.(agents := s.agents[agent.value := change(s.agents[agent.value])]))
  }

  function WithStatus(status: AgentStatus): AgentState -> AgentState {
    (a: AgentState) => a.(status := status)
  }

  function CancelAgents(agents: map<string, AgentState>): map<string, AgentState> {
    map id | id in agents ::
      if agents[id].status.AgentQueued? || agents[id].status.AgentRunning? || agents[id].status.AgentWaitingTool?
      then agents[id].(status := AgentCancelled) else agents[id]
  }

  // ---------- One event ----------

  function LastRecent(events: seq<Event>, n: nat): seq<Event> {
    if |events| <= n then events else events[|events| - n..]
  }

  /** `s` already carries the new sequence number and the event in `recent`. */
  function ReducePayload(s: RunState, d: Draft): Reduced {
    match d.payload
    case RunCreated(_) => Ok(s.(status := Planning))
    case RunStarted => Ok(s.(status := RunningRun))
    case RunPaused => Ok(s.(status := Paused))
    case RunResumed => Ok(s.(status := RunningRun))
    case RunSynthesizing => Ok(s.(status := Synthesizing))
    case RunCompleted => Ok(s.(status := RunComplete))
    case RunCancelled => Ok(s.(status := Cancelled, agents := CancelAgents(s.agents)))
    case RunFailed(error) => Ok(s.(status := RunFailure, failure := Some(error)))
    case StageStarted(known) => if known then Ok(s) else Err(BadPayload)
    case StageCompleted(known) => if known then Ok(s) else Err(BadPayload)
    case WorkflowPlanned(id, version, planned) =>
      if s.workflow.Some? || s.tasks != map[] then Err(AlreadyPlanned)
      else if id == "" || version == "" then Err(BadPayload)
      else
        var tasks := PlannedTasks(planned);
        if tasks.Err? then Err(tasks.error) else Ok(s.(workflow := Some(id), tasks := tasks.value))
    case WorkflowCompleted =>
      if s.workflow.None? then Err(NotPlanned)
      else if exists id :: id in s.tasks && !s.tasks[id].status.Terminal() then Err(UnfinishedTasks)
      else Ok(s)
    case OnTask(taskId, move) => ReduceTask(s, d.agent, taskId, move)
    case LaneTool(move) =>
      if move.ToolStart? then
        ReduceAgent(s, d.agent, (a: AgentState) => a.(status := AgentWaitingTool, toolCalls := a.toolCalls + 1))
      else ReduceAgent(s, d.agent, WithStatus(AgentRunning))
    case AgentRegistered(role, lane) =>
      if d.agent.None? then Err(BadPayload)
      else if d.agent.value in s.agents then Err(DuplicateAgent)
      else Ok(s.(agents := s.agents[d.agent.value := AgentState(role, lane, AgentQueued, 0, 0)]))
    case AgentStarted => ReduceAgent(s, d.agent, WithStatus(AgentRunning))
    case AgentProgress => ReduceAgent(s, d.agent, WithStatus(AgentRunning))
    case AgentCompleted => ReduceAgent(s, d.agent, WithStatus(AgentComplete))
    case AgentFailed => ReduceAgent(s, d.agent, WithStatus(AgentFailure))
    case EvidenceAdded(wellFormed) =>
      if !wellFormed then Err(BadPayload)
      else ReduceAgent(s, d.agent, (a: AgentState) => a.(evidence := a.evidence + 1))
    case CandidateUpdated(wellFormed) => if wellFormed then Ok(s) else Err(BadPayload)
  }

  function ReduceEvent(s: RunState, e: Event): Reduced {
    if e.schema != SCHEMA then Err(UnsupportedSchema)
    else if e.runId != s.spec.runId then Err(WrongRun)
    else if e.sequence != s.lastSequence + 1 then Err(OutOfSequence)
    else if s.status.Terminal() then Err(AfterTheEnd)
    else ReducePayload(s.(lastSequence := e.sequence, recent := LastRecent(s.recent, RECENT - 1) + [e]), e.draft)
  }

  /** `for event in events: state = reduce_event(state, event)` */
  function ReduceAll(s: RunState, events: seq<Event>): Reduced {
    if events == [] then Ok(s)
    else
      var before := ReduceAll(s, events[..|events| - 1]);
      if before.Err? then before else ReduceEvent(before.value, events[|events| - 1])
  }

  /** The event the controller makes of a draft: it alone owns schema, run ID and sequence. */
  function Stamp(s: RunState, d: Draft): Event {
    Event(SCHEMA, s.spec.runId, s.lastSequence + 1, d)
  }

  function Publish(s: RunState, d: Draft): Reduced {
    ReduceEvent(s, Stamp(s, d))
  }

  function PublishAll(s: RunState, drafts: seq<Draft>): Reduced {
    if drafts == [] then Ok(s)
    else
      var before := PublishAll(s, drafts[..|drafts| - 1]);
      if before.Err? then before else Publish(before.value, drafts[|drafts| - 1])
  }

  lemma PublishOne(s: RunState, drafts: seq<Draft>, d: Draft)
    ensures PublishAll(s, drafts + [d]) ==
      (var before := PublishAll(s, drafts); if before.Err? then before else Publish(before.value, d))
  {
    assert (drafts + [d])[..|drafts|] == drafts;
  }

  lemma {:induction false} PublishAppend(s: RunState, a: seq<Draft>, b: seq<Draft>)
    ensures PublishAll(s, a + b) ==
      (var before := PublishAll(s, a); if before.Err? then before else PublishAll(before.value, b))
  {
    if b == [] {
      assert a + b == a;
    } else {
      PublishAppend(s, a, b[..|b| - 1]);
      assert (a + b)[..|a + b| - 1] == a + b[..|b| - 1];
    }
  }

  lemma PublishChain(s: RunState, a: seq<Draft>, mid: RunState, b: seq<Draft>, end: RunState)
    requires PublishAll(s, a) == Ok(mid) && PublishAll(mid, b) == Ok(end)
    ensures PublishAll(s, a + b) == Ok(end)
  {
    PublishAppend(s, a, b);
  }

  // ---------- What every accepted stream keeps ----------

  /** Tasks know their own names and only depend on planned tasks; a task past QUEUED that was not
      skipped had every dependency end, and end well unless it allows failures. */
  ghost predicate Lawful(s: RunState) {
    && (s.workflow.None? ==> s.tasks == map[])
    && LawfulTasks(s.tasks)
  }

  ghost predicate LawfulTasks(tasks: map<string, TaskState>) {
    forall id :: id in tasks ==> LawfulTask(tasks, id)
  }

  ghost predicate LawfulTask(tasks: map<string, TaskState>, id: string) {
    && id in tasks && tasks[id].id == id
    && (forall d :: d in tasks[id].deps ==> d in tasks)
    && (tasks[id].status.Queued? || tasks[id].status.Skipped? || DependenciesAllow(tasks, tasks[id]))
  }

  /** Every task of `old` that has ended is unchanged in `new`. */
  ghost predicate KeepsEndedTasks(old': map<string, TaskState>, new': map<string, TaskState>) {
    forall id :: id in old' && old'[id].status.Terminal() ==> id in new' && new'[id] == old'[id]
  }

  lemma MoveKeepsLaw(tasks: map<string, TaskState>, id: string, m: Move)
    requires LawfulTasks(tasks) && id in tasks && MoveAllowed(tasks[id].status, m)
    requires m.Start? ==> DependenciesAllow(tasks, tasks[id])
    ensures LawfulTasks(tasks[id := Moved(tasks[id], m)])
    ensures KeepsEndedTasks(tasks, tasks[id := Moved(tasks[id], m)])
  {
    var after := tasks[id := Moved(tasks[id], m)];
    assert LawfulTask(tasks, id);
    forall x | x in after ensures LawfulTask(after, x) {
      assert LawfulTask(tasks, x);
      forall d | d in after[x].deps && Clears(tasks, tasks[x], d) ensures Clears(after, after[x], d) { }
    }
  }

  /** What an accepted event does to the tasks and the workflow. */
  lemma TaskEventEffect(s: RunState, e: Event)
    requires ReduceEvent(s, e).Ok? && e.draft.payload.OnTask?
    ensures var id, m, s' := e.draft.payload.taskId, e.draft.payload.move, ReduceEvent(s, e).value;
      && id in s.tasks && MoveAllowed(s.tasks[id].status, m)
      && (m.Start? ==> DependenciesAllow(s.tasks, s.tasks[id]))
      && s'.tasks == s.tasks[id := Moved(s.tasks[id], m)] && s'.workflow == s.workflow
  {
  }

  lemma PlanEffect(s: RunState, e: Event)
    requires ReduceEvent(s, e).Ok? && e.draft.payload.WorkflowPlanned?
    ensures s.tasks == map[] && s.workflow.None? && PlannedTasks(e.draft.payload.planned).Ok?
    ensures var s' := ReduceEvent(s, e).value;
      s'.tasks == PlannedTasks(e.draft.payload.planned).value && s'.workflow.Some?
  {
  }

  lemma OtherEffect(s: RunState, e: Event)
    requires ReduceEvent(s, e).Ok? && !e.draft.payload.OnTask? && !e.draft.payload.WorkflowPlanned?
    ensures ReduceEvent(s, e).value.tasks == s.tasks && ReduceEvent(s, e).value.workflow == s.workflow
  {
  }

  /** The law over one step. */
  ghost predicate KeepsLaw(s: RunState, s': RunState) {
    Lawful(s') && KeepsEndedTasks(s.tasks, s'.tasks) && KeepsPlan(s, s')
  }

  lemma LawAfterMove(s: RunState, s': RunState, id: string, m: Move)
    requires Lawful(s) && id in s.tasks && MoveAllowed(s.tasks[id].status, m)
    requires m.Start? ==> DependenciesAllow(s.tasks, s.tasks[id])
    requires s'.tasks == s.tasks[id := Moved(s.tasks[id], m)] && s'.workflow == s.workflow
    ensures KeepsLaw(s, s')
  {
    MoveKeepsLaw(s.tasks, id, m);
  }

  lemma PlansAreLawful(ts: seq<Dag.Task>)
    requires PlannedTasks(ts).Ok?
    ensures LawfulTasks(PlannedTasks(ts).value)
  {
    var g, tasks := Dag.TasksById(ts), PlannedTasks(ts).value;
    forall id | id in tasks ensures LawfulTask(tasks, id) { }
  }

  lemma StepKeepsLaw(s: RunState, e: Event)
    requires Lawful(s) && ReduceEvent(s, e).Ok?
    ensures KeepsLaw(s, ReduceEvent(s, e).value)
  {
    if e.draft.payload.OnTask? {
      TaskEventEffect(s, e);
      LawAfterMove(s, ReduceEvent(s, e).value, e.draft.payload.taskId, e.draft.payload.move);
    } else if e.draft.payload.WorkflowPlanned? {
      PlanEffect(s, e);
      PlansAreLawful(e.draft.payload.planned);
    } else {
      OtherEffect(s, e);
    }
  }

  ghost predicate KeepsPlan(s: RunState, s': RunState) {
    s.workflow.Some? ==> s'.workflow == s.workflow && s'.tasks.Keys == s.tasks.Keys
  }

  /** Over any accepted stream: dependency order holds in the end state, tasks that had ended are
      frozen from then on, and a planned workflow keeps its tasks. */
  lemma {:induction false} StreamsKeepLaw(s: RunState, events: seq<Event>)
    requires Lawful(s) && ReduceAll(s, events).Ok?
    ensures Lawful(ReduceAll(s, events).value)
    ensures KeepsEndedTasks(s.tasks, ReduceAll(s, events).value.tasks)
    ensures KeepsPlan(s, ReduceAll(s, events).value)
  {
    if events != [] {
      var front := events[..|events| - 1];
      StreamsKeepLaw(s, front);
      StepKeepsLaw(ReduceAll(s, front).value, events[|events| - 1]);
    }
  }

  lemma ReachableStatesAreLawful(spec: RunSpec, events: seq<Event>)
    requires ReduceAll(InitialState(spec), events).Ok?
    ensures Lawful(ReduceAll(InitialState(spec), events).value)
  {
    StreamsKeepLaw(InitialState(spec), events);
  }

  /** After an accepted WORKFLOW_COMPLETED no stream changes any task again. */
  lemma CompletionFreezesTasks(
      spec: RunSpec, before: seq<Event>, s: RunState, e: Event, s': RunState, after: seq<Event>)
    requires ReduceAll(InitialState(spec), before) == Ok(s)
    requires e.draft.payload.WorkflowCompleted? && ReduceEvent(s, e) == Ok(s')
    requires ReduceAll(s', after).Ok?
    ensures ReduceAll(s', after).value.tasks == s.tasks
  {
    ReachableStatesAreLawful(spec, before);
    StepKeepsLaw(s, e);
    CompletionEffect(s, e);
    StreamsKeepLaw(s', after);
    EndedTablesStay(s'.tasks, ReduceAll(s', after).value.tasks);
  }

  lemma CompletionEffect(s: RunState, e: Event)
    requires e.draft.payload.WorkflowCompleted? && ReduceEvent(s, e).Ok?
    ensures ReduceEvent(s, e).value.tasks == s.tasks && ReduceEvent(s, e).value.workflow.Some?
    ensures forall id :: id in s.tasks ==> s.tasks[id].status.Terminal()
  {
  }

  lemma EndedTablesStay(old': map<string, TaskState>, new': map<string, TaskState>)
    requires KeepsEndedTasks(old', new') && new'.Keys == old'.Keys
    requires forall id :: id in old' ==> old'[id].status.Terminal()
    ensures new' == old'
  {
  }

  /** The reducer plans exactly the lists that name tasks properly and have no dependency cycle. */
  lemma PlansAcyclicGraphs(ts: seq<Dag.Task>)
    requires Dag.WellFormed(ts) && ts != []
    requires forall t :: t in ts ==> t.id != "" && t.agent != "" && "" !in t.deps
    ensures PlannedTasks(ts).Ok? <==> Dag.Acyclic(Dag.TasksById(ts))
  {
    Dag.PeelingAgrees(Dag.TasksById(ts));
  }
}
