/** What the reducer's agent records say of a stream of task events: the last event of an agent's tasks decides its
    status, and its tool calls are those of its tasks. */
module Agents {
  import opened Common
  import opened Events
  import opened Reducer
  import opened Workload
  import opened Simulation
  import opened Scheduler
  import Dag

  // ---------- Reading a stream ----------

  /** The last move of any of an agent's tasks. */
  function LastFor(drafts: seq<Draft>, agent: string): Option<Move> {
    if drafts == [] then None
    else
      var d := drafts[|drafts| - 1];
      if d.payload.OnTask? && d.agent == Some(agent) then Some(d.payload.move)
      else LastFor(drafts[..|drafts| - 1], agent)
  }

  /** The last move of a task. */
  function LastOn(drafts: seq<Draft>, id: string): Option<Move> {
    if drafts == [] then None
    else
      var d := drafts[|drafts| - 1];
      if d.payload.OnTask? && d.payload.taskId == id then Some(d.payload.move)
      else LastOn(drafts[..|drafts| - 1], id)
  }

  lemma LastOfOneMore(drafts: seq<Draft>, t: Dag.Task, m: Move, agent: string, id: string)
    ensures LastFor(drafts + [TaskDraft(t, m)], agent) == if agent == t.agent then Some(m) else LastFor(drafts, agent)
    ensures LastOn(drafts + [TaskDraft(t, m)], id) == if id == t.id then Some(m) else LastOn(drafts, id)
  {
    assert (drafts + [TaskDraft(t, m)])[..|drafts|] == drafts;
  }

  /** What an agent shows after the last move of its tasks. */
  function Shown(last: Option<Move>): AgentStatus {
    match last
    case None => AgentQueued
    case Some(m) => if m.ToolStart? then AgentWaitingTool else AgentRunning
  }

  /** The tool calls of an agent's tasks among those listed. */
  function ToolsOf(order: seq<string>, tasks: map<string, TaskState>, agent: string): nat {
    if order == [] then 0
    else
      var id := order[|order| - 1];
      ToolsOf(order[..|order| - 1], tasks, agent)
      + (if id in tasks && tasks[id].agent == agent then tasks[id].toolCalls else 0)
  }

  /** An agent's record after the task events `drafts`. */
  predicate Tracked(order: seq<string>, drafts: seq<Draft>, rs: RunState, agent: string) {
    agent in rs.agents && rs.agents[agent] ==
      AgentState(agent, "fixed_dag", Shown(LastFor(drafts, agent)), ToolsOf(order, rs.tasks, agent), 0)
  }

  predicate LastIsSkip(last: Option<Move>) {
    last.Some? && last.value.Skip?
  }

  /** A task waits for a tool exactly when its last event started one, and is skipped exactly when that was its last. */
  predicate WaitsAsTold(drafts: seq<Draft>, rs: RunState, id: string) {
    && id in rs.tasks
    && (rs.tasks[id].status.WaitingTool? <==> LastOn(drafts, id) == Some(ToolStart))
    && (rs.tasks[id].status.Skipped? <==> LastIsSkip(LastOn(drafts, id)))
  }

  ghost predicate Tracks(w: Workload, drafts: seq<Draft>, rs: RunState) {
    && (forall a {:trigger Tracked(w.order, drafts, rs, a)} :: a in rs.agents ==> Tracked(w.order, drafts, rs, a))
    && (forall id {:trigger WaitsAsTold(drafts, rs, id)} :: id in w.graph ==> WaitsAsTold(drafts, rs, id))
  }

  /** Registered and idle. */
  predicate JustRegistered(agents: map<string, AgentState>) {
    forall a :: a in agents ==> agents[a] == AgentState(a, "fixed_dag", AgentQueued, 0, 0)
  }

  // ---------- One event ----------

  lemma {:induction false} CallCounted(
      order: seq<string>, tasks: map<string, TaskState>, id: string, m: Move, agent: string)
    requires Unique(order) && id in tasks
    ensures ToolsOf(order, tasks[id := Moved(tasks[id], m)], agent) == ToolsOf(order, tasks, agent)
      + (if id in order && tasks[id].agent == agent && m.ToolStart? then 1 else 0)
  {
    if order != [] {
      var n := |order| - 1;
      UniquePrefix(order, n);
      CallCounted(order[..n], tasks, id, m, agent);
      LastTaken(order);
      assert id in order <==> id in order[..n] || id == order[n];
    }
  }

  /** What an accepted task event changes. */
  lemma TaskEventTouches(rs: RunState, t: Dag.Task, m: Move)
    requires Publish(rs, TaskDraft(t, m)).Ok?
    ensures var rs' := Publish(rs, TaskDraft(t, m)).value;
      && t.id in rs.tasks && MoveAllowed(rs.tasks[t.id].status, m) && rs.tasks[t.id].agent == t.agent
      && rs'.tasks == rs.tasks[t.id := Moved(rs.tasks[t.id], m)]
      && rs'.agents == TouchOwner(rs.agents, t.agent, m.ToolStart?)
  {
  }

  lemma WaitsAfter(x: TaskState, m: Move)
    requires MoveAllowed(x.status, m)
    ensures Moved(x, m).status.WaitingTool? <==> m.ToolStart?
    ensures Moved(x, m).status.Skipped? <==> m.Skip?
  {
  }

  lemma TrackedAfter(w: Workload, drafts: seq<Draft>, rs: RunState, t: Dag.Task, m: Move, agent: string)
    requires Valid(w) && Publish(rs, TaskDraft(t, m)).Ok? && t.id in w.graph && Tracked(w.order, drafts, rs, agent)
    ensures Tracked(w.order, drafts + [TaskDraft(t, m)], Publish(rs, TaskDraft(t, m)).value, agent)
  {
    TaskEventTouches(rs, t, m);
    CallCounted(w.order, rs.tasks, t.id, m, agent);
    LastOfOneMore(drafts, t, m, agent, t.id);
    assert t.id in Elements(w.order);
  }

  lemma TaskEventTracks(w: Workload, drafts: seq<Draft>, rs: RunState, t: Dag.Task, m: Move)
    requires Valid(w) && Publish(rs, TaskDraft(t, m)).Ok? && t.id in w.graph && Tracks(w, drafts, rs)
    ensures Tracks(w, drafts + [TaskDraft(t, m)], Publish(rs, TaskDraft(t, m)).value)
  {
    var rs' := Publish(rs, TaskDraft(t, m)).value;
    TaskEventTouches(rs, t, m);
    forall a | a in rs'.agents ensures Tracked(w.order, drafts + [TaskDraft(t, m)], rs', a) {
      TrackedAfter(w, drafts, rs, t, m, a);
    }
    forall id | id in w.graph ensures WaitsAsTold(drafts + [TaskDraft(t, m)], rs', id) {
      assert WaitsAsTold(drafts, rs, id);
      LastOfOneMore(drafts, t, m, t.agent, id);
      WaitsAfter(rs.tasks[t.id], m);
    }
  }

  // ---------- A stream of task events ----------

  ghost predicate TaskEvents(w: Workload, drafts: seq<Draft>) {
    forall i :: 0 <= i < |drafts| ==> TaskEvent(w, drafts[i])
  }

  ghost predicate TaskEvent(w: Workload, d: Draft) {
    d.payload.OnTask? && d.payload.taskId in w.graph && d == TaskDraft(w.graph[d.payload.taskId], d.payload.move)
  }

  lemma {:induction false} NoToolsYet(order: seq<string>, tasks: map<string, TaskState>, agent: string)
    requires forall id :: id in tasks ==> tasks[id].toolCalls == 0
    ensures ToolsOf(order, tasks, agent) == 0
  {
    if order != [] { NoToolsYet(order[..|order| - 1], tasks, agent); }
  }

  lemma TracksAtFirst(w: Workload, rs: RunState)
    requires JustRegistered(rs.agents) && rs.tasks.Keys == w.graph.Keys
    requires forall id :: id in w.graph ==> rs.tasks[id] == FreshTask(w.graph[id])
    ensures Tracks(w, [], rs)
  {
    forall a | a in rs.agents ensures Tracked(w.order, [], rs, a) { NoToolsYet(w.order, rs.tasks, a); }
  }

  /** After any accepted stream of task events the reducer's agents show what the stream says of them. */
  lemma {:induction false} StreamsTrack(w: Workload, rs0: RunState, drafts: seq<Draft>)
    requires Valid(w) && TaskEvents(w, drafts) && Tracks(w, [], rs0) && PublishAll(rs0, drafts).Ok?
    ensures Tracks(w, drafts, PublishAll(rs0, drafts).value)
    ensures PublishAll(rs0, drafts).value.agents.Keys == rs0.agents.Keys
  {
    if drafts != [] {
      var n := |drafts| - 1;
      StreamsTrack(w, rs0, drafts[..n]);
      assert TaskEvent(w, drafts[n]);
      LastTaken(drafts);
      var t, m, rs := w.graph[drafts[n].payload.taskId], drafts[n].payload.move, PublishAll(rs0, drafts[..n]).value;
      TaskEventTracks(w, drafts[..n], rs, t, m);
      TaskEventTouches(rs, t, m);
    }
  }

  lemma TaskEventsAppend(w: Workload, a: seq<Draft>, b: seq<Draft>)
    requires TaskEvents(w, a) && TaskEvents(w, b)
    ensures TaskEvents(w, a + b)
  {
  }

  /** The scheduler emits nothing else. */
  lemma {:induction false} EmissionsAreTaskEvents(w: Workload, actors: seq<Actor>)
    requires Valid(w)
    ensures TaskEvents(w, Run(w, actors).emitted)
  {
    if actors != [] {
      var before, a := actors[..|actors| - 1], actors[|actors| - 1];
      var s := Run(w, before);
      EmissionsAreTaskEvents(w, before);
      if a.Loop? {
        var d := Decide(w, s);
        if d.SkipTask? || d.BeginStart? || d.Deliver? {
          DecidedTask(w, s);
          EmittedDraft(w, s, d);
          TaskEventsAppend(w, s.emitted, [TaskDraft(d.t, EmittedMove(s, d))]);
        }
      }
    }
  }

  lemma DecidedTask(w: Workload, s: State)
    requires Dag.Closed(w.graph)
    ensures var d := Decide(w, s);
      d.SkipTask? || d.BeginStart? || d.Deliver? ==> d.t.id in w.graph && w.graph[d.t.id] == d.t
  {
  }
}
