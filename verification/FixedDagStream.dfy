/** The whole event stream of the fixed-DAG runtime (`FixedDagRuntime.stream`): registration, the plan, the task
    events of either loop, and the closing events. */
module FixedDagStream {
  import opened Common
  import opened Events
  import opened Reducer
  import opened Workload
  import opened Simulation
  import opened Sorting
  import Scheduler
  import SchedulerInvariant
  import SchedulerTheorems
  import Agents
  import Dag

  // ---------- Before and after the tasks ----------

  function OwnerList(ts: seq<Dag.Task>): seq<string> {
    seq(|ts|, i requires 0 <= i < |ts| => ts[i].agent)
  }

  /** `agent_ids` */
  function AgentIds(ts: seq<Dag.Task>): seq<string> {
    Distinct(OwnerList(ts))
  }

  function Registration(agent: string): Draft {
    Draft(Some(agent), AgentRegistered(agent, "fixed_dag"))
  }

  function Registrations(agents: seq<string>): seq<Draft> {
    seq(|agents|, i requires 0 <= i < |agents| => Registration(agents[i]))
  }

  function Header(id: string, version: string, ts: seq<Dag.Task>): seq<Draft> {
    Registrations(AgentIds(ts)) + [Draft(None, WorkflowPlanned(id, version, ts))]
  }

  function AgentEnd(ts: seq<Dag.Task>, outcomes: map<string, Outcome>, agent: string): Draft {
    Draft(Some(agent),
      if exists t :: t in ts && t.agent == agent && OutcomeAt(outcomes, t.id).status.Bad() then AgentFailed
      else AgentCompleted)
  }

  function AgentEnds(ts: seq<Dag.Task>, outcomes: map<string, Outcome>, agents: seq<string>): seq<Draft> {
    seq(|agents|, i requires 0 <= i < |agents| => AgentEnd(ts, outcomes, agents[i]))
  }

  function Footer(ts: seq<Dag.Task>, outcomes: map<string, Outcome>): seq<Draft> {
    AgentEnds(ts, outcomes, AgentIds(ts)) + [Draft(None, WorkflowCompleted)]
  }

  /** `required_failures`: what makes the stream raise after its last event. */
  function RequiredFailures(ts: seq<Dag.Task>, outcomes: map<string, Outcome>): (r: seq<string>)
    ensures r == [] <==> forall t :: t in ts && t.required ==> !OutcomeAt(outcomes, t.id).status.Bad()
    ensures forall x :: x in r <==>
      exists t :: t in ts && t.required && t.id == x && OutcomeAt(outcomes, x).status.Bad()
  {
    if ts == [] then []
    else
      var n, t := |ts| - 1, ts[|ts| - 1];
      assert ts == ts[..n] + [t];
      RequiredFailures(ts[..n], outcomes)
      + (if t.required && OutcomeAt(outcomes, t.id).status.Bad() then [t.id] else [])
  }

  /** A run that has been created and started, and has planned nothing yet. */
  predicate ReadyToPlan(rs: RunState) {
    !rs.status.Terminal() && rs.agents == map[] && rs.workflow.None? && rs.tasks == map[]
  }

  /** The workload is that of a well-formed task list. */
  ghost predicate Declares(w: Workload, ts: seq<Dag.Task>) {
    && Valid(w) && Dag.WellFormed(ts) && w.graph == Dag.TasksById(ts)
    && ts != [] && forall t :: t in ts ==> t.id != "" && t.agent != "" && "" !in t.deps
  }

  ghost predicate Runs(w: Workload, ts: seq<Dag.Task>) {
    Declares(w, ts) && LawfulBody(w)
  }

  lemma RegistrationAccepted(rs: RunState, agent: string) returns (rs': RunState)
    requires !rs.status.Terminal() && agent !in rs.agents
    ensures Publish(rs, Registration(agent)) == Ok(rs')
    ensures rs'.status == rs.status && rs'.workflow == rs.workflow && rs'.tasks == rs.tasks
    ensures rs'.agents.Keys == rs.agents.Keys + {agent}
    ensures Agents.JustRegistered(rs.agents) ==> Agents.JustRegistered(rs'.agents)
  {
    rs' := Publish(rs, Registration(agent)).value;
  }

  lemma RegistrationsSplit(agents: seq<string>)
    requires agents != []
    ensures var front, last := agents[..|agents| - 1], agents[|agents| - 1];
      Registrations(agents) == Registrations(front) + [Registration(last)]
      && Elements(agents) == Elements(front) + {last}
  {
    assert agents == agents[..|agents| - 1] + [agents[|agents| - 1]];
  }

  lemma {:induction false} RegistrationsAccepted(rs: RunState, agents: seq<string>) returns (rs': RunState)
    requires !rs.status.Terminal() && rs.agents == map[] && Unique(agents)
    ensures PublishAll(rs, Registrations(agents)) == Ok(rs')
    ensures rs'.status == rs.status && rs'.workflow == rs.workflow && rs'.tasks == rs.tasks
    ensures rs'.agents.Keys == Elements(agents) && Agents.JustRegistered(rs'.agents)
  {
    if agents == [] {
      rs' := rs;
      assert Registrations(agents) == [];
    } else {
      var front, last := agents[..|agents| - 1], agents[|agents| - 1];
      UniquePrefix(agents, |front|);
      rs' := RegistrationsAccepted(rs, front);
      RegistrationsSplit(agents);
      assert Elements(agents) == Elements(front) + {last};
      PublishOne(rs, Registrations(front), Registration(last));
      rs' := RegistrationAccepted(rs', last);
    }
  }

  lemma NamedTasks(w: Workload, ts: seq<Dag.Task>)
    requires Runs(w, ts)
    ensures NamesGiven(w)
    ensures forall id :: id in w.graph ==> w.graph[id] in ts && w.graph[id].agent in AgentIds(ts)
  {
    forall id | id in w.graph ensures id != "" && w.graph[id] in ts && w.graph[id].agent in AgentIds(ts) {
      assert id in Elements(Dag.Names(ts));
      var p :| 0 <= p < |ts| && Dag.Names(ts)[p] == id;
      assert OwnerList(ts)[p] == ts[p].agent;
      assert ts[p].agent in Elements(AgentIds(ts));
    }
  }

  lemma PlanAccepted(rs: RunState, id: string, version: string, ts: seq<Dag.Task>) returns (rs': RunState)
    requires !rs.status.Terminal() && rs.workflow.None? && rs.tasks == map[] && id != "" && version != ""
    requires PlannedTasks(ts).Ok?
    ensures Publish(rs, Draft(None, WorkflowPlanned(id, version, ts))) == Ok(rs')
    ensures rs'.status == rs.status && rs'.workflow.Some? && rs'.tasks == PlannedTasks(ts).value
    ensures rs'.agents == rs.agents
  {
    rs' := Publish(rs, Draft(None, WorkflowPlanned(id, version, ts))).value;
  }

  lemma PlanFollows(w: Workload, ts: seq<Dag.Task>, rs: RunState)
    requires Runs(w, ts) && PlannedTasks(ts).Ok? && rs.tasks == PlannedTasks(ts).value
    requires !rs.status.Terminal() && rs.workflow.Some? && rs.agents.Keys == Elements(AgentIds(ts))
    ensures Follows(w, Scheduler.Init(w), rs)
  {
    NamedTasks(w, ts);
    forall x | x in w.graph ensures Mirrors(w, Scheduler.Init(w), rs.tasks, x) { }
  }

  /** Registration and planning leave the reducer in step with a scheduler that has not begun. */
  lemma HeaderAccepted(w: Workload, id: string, version: string, ts: seq<Dag.Task>, rs: RunState)
    returns (rs': RunState)
    requires Runs(w, ts) && ReadyToPlan(rs) && id != "" && version != ""
    ensures PublishAll(rs, Header(id, version, ts)) == Ok(rs')
    ensures Follows(w, Scheduler.Init(w), rs') && NamesGiven(w)
    ensures rs'.agents.Keys == Owners(w) && Elements(AgentIds(ts)) == Owners(w) && Agents.Tracks(w, [], rs')
  {
    NamedTasks(w, ts);
    rs' := RegistrationsAccepted(rs, AgentIds(ts));
    PublishOne(rs, Registrations(AgentIds(ts)), Draft(None, WorkflowPlanned(id, version, ts)));
    Dag.OrderedIsAcyclic(w.graph, w.order);
    PlansAcyclicGraphs(ts);
    rs' := PlanAccepted(rs', id, version, ts);
    PlanFollows(w, ts, rs');
    OwnersAreRegistered(w, ts);
    Agents.TracksAtFirst(w, rs');
  }

  /** The agents that own tasks. */
  function Owners(w: Workload): set<string> {
    set id | id in w.graph :: w.graph[id].agent
  }

  lemma OwnersAreRegistered(w: Workload, ts: seq<Dag.Task>)
    requires Runs(w, ts)
    ensures Elements(AgentIds(ts)) == Owners(w)
  {
    NamedTasks(w, ts);
    forall a | a in Elements(AgentIds(ts)) ensures a in Owners(w) {
      assert a in Elements(OwnerList(ts));
      var i :| 0 <= i < |ts| && OwnerList(ts)[i] == a;
      assert ts[i] in ts && Dag.Names(ts)[i] == ts[i].id;
      assert ts[i].id in w.graph;
      OwnTask(ts, i);
    }
  }

  /** A well-formed list names each task once. */
  lemma OwnTask(ts: seq<Dag.Task>, i: nat)
    requires Dag.WellFormed(ts) && i < |ts|
    ensures ts[i].id in Dag.TasksById(ts) && Dag.TasksById(ts)[ts[i].id] == ts[i]
  {
  }

  ghost predicate OwnsFailure(ts: seq<Dag.Task>, outcomes: map<string, Outcome>, agent: string) {
    exists t :: t in ts && t.agent == agent && OutcomeAt(outcomes, t.id).status.Bad()
  }

  /** FAILED for the owner of a failed or skipped task, and otherwise COMPLETE. */
  ghost function EndStatus(ts: seq<Dag.Task>, outcomes: map<string, Outcome>, agent: string): AgentStatus {
    if OwnsFailure(ts, outcomes, agent) then AgentFailure else AgentComplete
  }

  lemma AgentEndAccepted(rs: RunState, ts: seq<Dag.Task>, outcomes: map<string, Outcome>, agent: string)
    returns (rs': RunState)
    requires !rs.status.Terminal() && agent in rs.agents
    ensures Publish(rs, AgentEnd(ts, outcomes, agent)) == Ok(rs')
    ensures rs'.status == rs.status && rs'.workflow == rs.workflow && rs'.tasks == rs.tasks
    ensures rs'.agents == rs.agents[agent := rs.agents[agent].(status := EndStatus(ts, outcomes, agent))]
  {
    rs' := Publish(rs, AgentEnd(ts, outcomes, agent)).value;
  }

  lemma {:induction false} AgentEndsAccepted(
      rs: RunState, ts: seq<Dag.Task>, outcomes: map<string, Outcome>, agents: seq<string>)
    returns (rs': RunState)
    requires !rs.status.Terminal() && forall a :: a in agents ==> a in rs.agents
    ensures PublishAll(rs, AgentEnds(ts, outcomes, agents)) == Ok(rs')
    ensures rs'.status == rs.status && rs'.workflow == rs.workflow && rs'.tasks == rs.tasks
    ensures AgentsClosed(rs, ts, outcomes, agents, rs')
  {
    if agents == [] {
      rs' := rs;
      assert AgentEnds(ts, outcomes, agents) == [];
    } else {
      var front, last := agents[..|agents| - 1], agents[|agents| - 1];
      rs' := AgentEndsAccepted(rs, ts, outcomes, front);
      assert AgentEnds(ts, outcomes, agents) == AgentEnds(ts, outcomes, front) + [AgentEnd(ts, outcomes, last)];
      PublishOne(rs, AgentEnds(ts, outcomes, front), AgentEnd(ts, outcomes, last));
      var before := rs';
      rs' := AgentEndAccepted(before, ts, outcomes, last);
      LastTaken(agents);
      OneMoreClosed(rs, ts, outcomes, front, last, before, rs');
    }
  }

  /** The agents listed have got their end status, and nothing else has changed. */
  ghost predicate AgentsClosed(
      rs: RunState, ts: seq<Dag.Task>, outcomes: map<string, Outcome>, agents: seq<string>, rs': RunState)
  {
    && rs'.agents.Keys == rs.agents.Keys
    && forall a {:trigger ClosedOff(rs, ts, outcomes, agents, rs', a)} ::
      a in rs.agents ==> ClosedOff(rs, ts, outcomes, agents, rs', a)
  }

  ghost predicate ClosedOff(
      rs: RunState, ts: seq<Dag.Task>, outcomes: map<string, Outcome>, agents: seq<string>, rs': RunState,
      agent: string)
  {
    && agent in rs.agents && agent in rs'.agents
    && rs'.agents[agent] ==
       if agent in agents then rs.agents[agent].(status := EndStatus(ts, outcomes, agent)) else rs.agents[agent]
  }

  lemma OneMoreClosed(rs: RunState, ts: seq<Dag.Task>, outcomes: map<string, Outcome>, front: seq<string>, last: string,
                      before: RunState, rs': RunState)
    requires AgentsClosed(rs, ts, outcomes, front, before) && last in before.agents
    requires rs'.agents == before.agents[last := before.agents[last].(status := EndStatus(ts, outcomes, last))]
    ensures AgentsClosed(rs, ts, outcomes, front + [last], rs')
  {
    forall a | a in rs.agents ensures ClosedOff(rs, ts, outcomes, front + [last], rs', a) {
      assert ClosedOff(rs, ts, outcomes, front, before, a);
    }
  }

  lemma SameAgentsClosed(rs: RunState, ts: seq<Dag.Task>, outcomes: map<string, Outcome>, agents: seq<string>,
                         closed: RunState, rs': RunState)
    requires AgentsClosed(rs, ts, outcomes, agents, closed) && rs'.agents == closed.agents
    ensures AgentsClosed(rs, ts, outcomes, agents, rs')
  {
    forall a | a in rs.agents ensures ClosedOff(rs, ts, outcomes, agents, rs', a) {
      assert ClosedOff(rs, ts, outcomes, agents, closed, a);
    }
  }

  lemma WorkflowEndAccepted(rs: RunState) returns (rs': RunState)
    requires !rs.status.Terminal() && rs.workflow.Some?
    requires forall id :: id in rs.tasks ==> rs.tasks[id].status.Terminal()
    ensures Publish(rs, Draft(None, WorkflowCompleted)) == Ok(rs')
    ensures rs'.status == rs.status && rs'.tasks == rs.tasks && rs'.agents == rs.agents
  {
    rs' := Publish(rs, Draft(None, WorkflowCompleted)).value;
  }

  /** The closing events are accepted once every task has ended, and leave the run open for its own end. */
  lemma FooterAccepted(rs: RunState, ts: seq<Dag.Task>, outcomes: map<string, Outcome>) returns (rs': RunState)
    requires !rs.status.Terminal() && rs.workflow.Some? && forall a :: a in AgentIds(ts) ==> a in rs.agents
    requires forall id :: id in rs.tasks ==> rs.tasks[id].status.Terminal()
    ensures PublishAll(rs, Footer(ts, outcomes)) == Ok(rs')
    ensures rs'.status == rs.status && rs'.tasks == rs.tasks
    ensures AgentsClosed(rs, ts, outcomes, AgentIds(ts), rs')
  {
    var closed := AgentEndsAccepted(rs, ts, outcomes, AgentIds(ts));
    PublishOne(rs, AgentEnds(ts, outcomes, AgentIds(ts)), Draft(None, WorkflowCompleted));
    rs' := WorkflowEndAccepted(closed);
    SameAgentsClosed(rs, ts, outcomes, AgentIds(ts), closed, rs');
  }

  // ---------- The concurrent stream ----------

  /** Every interleaving's stream is accepted, event by event. */
  lemma ConcurrentStreamAccepted(
      w: Workload, id: string, version: string, ts: seq<Dag.Task>, rs: RunState, actors: seq<Scheduler.Actor>)
    returns (rs': RunState)
    requires Runs(w, ts) && ReadyToPlan(rs) && id != "" && version != ""
    ensures PublishAll(rs, Header(id, version, ts) + Scheduler.Run(w, actors).emitted) == Ok(rs')
    ensures Follows(w, Scheduler.Run(w, actors), rs')
    ensures rs'.agents.Keys == Owners(w) && Agents.Tracks(w, Scheduler.Run(w, actors).emitted, rs')
  {
    var planned := HeaderAccepted(w, id, version, ts, rs);
    rs' := EmissionsAccepted(w, planned, actors);
    PublishChain(rs, Header(id, version, ts), planned, Scheduler.Run(w, actors).emitted, rs');
    Agents.EmissionsAreTaskEvents(w, actors);
    Agents.StreamsTrack(w, planned, Scheduler.Run(w, actors).emitted);
  }

  // ---------- What the end state says ----------

  /** An agent at the end: FAILED exactly when one of its tasks failed or was skipped, otherwise COMPLETE, with the
      tool calls of its tasks. */
  ghost predicate AgentTells(w: Workload, rs: RunState, agent: string) {
    && agent in rs.agents
    && rs.agents[agent].role == agent && rs.agents[agent].lane == "fixed_dag" && rs.agents[agent].evidence == 0
    && rs.agents[agent].toolCalls == Agents.ToolsOf(w.order, rs.tasks, agent)
    && (rs.agents[agent].status.AgentFailure? <==> OwnsBadTask(w, rs, agent))
    && (rs.agents[agent].status.AgentComplete? <==> !OwnsBadTask(w, rs, agent))
  }

  ghost predicate OwnsBadTask(w: Workload, rs: RunState, agent: string) {
    exists x :: x in w.graph && w.graph[x].agent == agent && x in rs.tasks && rs.tasks[x].status.Bad()
  }

  ghost predicate AgentsTell(w: Workload, rs: RunState) {
    rs.agents.Keys == Owners(w) && forall a {:trigger AgentTells(w, rs, a)} :: a in rs.agents ==> AgentTells(w, rs, a)
  }

  /** A task was skipped exactly when it does not tolerate failures and a dependency failed or was skipped, and then its
      error names those dependencies. */
  ghost predicate SkippedRightly(w: Workload, rs: RunState, id: string)
    requires id in w.graph
  {
    && id in rs.tasks
    && (rs.tasks[id].status.Skipped? <==>
        !w.graph[id].allowFailed
        && exists d :: d in w.graph[id].deps && IsBad(rs, d))
    && var bad := Selection(w.graph[id].deps, (d: string) => IsBad(rs, d));
      rs.tasks[id].status.Skipped? ==> rs.tasks[id].error == Some(BlockedText(bad))
  }

  predicate IsBad(rs: RunState, id: string) {
    id in rs.tasks && rs.tasks[id].status.Bad()
  }

  /** The reducer's end state against the runtime's own outcomes. */
  ghost predicate Reports(w: Workload, outcomes: map<string, Outcome>, rs: RunState) {
    && rs.tasks.Keys == outcomes.Keys == w.graph.Keys
    && (forall x :: x in w.graph ==> Matches(rs.tasks[x], outcomes[x]))
    && (forall x {:trigger SkippedRightly(w, rs, x)} :: x in w.graph ==> SkippedRightly(w, rs, x))
    && AgentsTell(w, rs)
  }

  lemma {:induction false} SelectionAgrees<T>(s: seq<T>, f: T -> bool, g: T -> bool)
    requires forall x :: x in s ==> f(x) == g(x)
    ensures Selection(s, f) == Selection(s, g)
  {
    if s != [] { SelectionAgrees(s[..|s| - 1], f, g); }
  }

  lemma EndStatusTells(
      w: Workload, ts: seq<Dag.Task>, outcomes: map<string, Outcome>, tasks: map<string, TaskState>, rs: RunState,
      agent: string)
    requires Runs(w, ts) && rs.tasks == tasks && tasks.Keys == outcomes.Keys == w.graph.Keys
    requires forall x :: x in w.graph ==> Matches(tasks[x], outcomes[x])
    ensures OwnsFailure(ts, outcomes, agent) <==> OwnsBadTask(w, rs, agent)
  {
    if t :| t in ts && t.agent == agent && OutcomeAt(outcomes, t.id).status.Bad() {
      var i :| 0 <= i < |ts| && ts[i] == t;
      OwnTask(ts, i);
      assert w.graph[t.id].agent == agent && tasks[t.id].status.Bad();
    }
    if x :| x in w.graph && w.graph[x].agent == agent && x in tasks && tasks[x].status.Bad() {
      NamedTasks(w, ts);
      assert w.graph[x] in ts && w.graph[x].id == x;
    }
  }

  lemma AgentsTellAtEnd(
      w: Workload, ts: seq<Dag.Task>, outcomes: map<string, Outcome>, drafts: seq<Draft>, rs: RunState, rs': RunState)
    requires Runs(w, ts) && rs'.tasks == rs.tasks && rs.tasks.Keys == outcomes.Keys == w.graph.Keys
    requires forall x :: x in w.graph ==> Matches(rs.tasks[x], outcomes[x])
    requires rs.agents.Keys == Owners(w) && Agents.Tracks(w, drafts, rs)
    requires AgentsClosed(rs, ts, outcomes, AgentIds(ts), rs')
    ensures AgentsTell(w, rs')
  {
    OwnersAreRegistered(w, ts);
    forall a | a in rs'.agents ensures AgentTells(w, rs', a) {
      assert ClosedOff(rs, ts, outcomes, AgentIds(ts), rs', a) && Agents.Tracked(w.order, drafts, rs, a);
      assert a in Elements(AgentIds(ts));
      EndStatusTells(w, ts, outcomes, rs.tasks, rs', a);
    }
  }

  /** The runtime's own skips are right, and the reducer shows the same statuses. */
  lemma SkipsAreRight(w: Workload, m: Verdicts, outcomes: map<string, Outcome>, rs: RunState)
    requires Dag.Closed(w.graph) && LawfulBody(w) && Solves(w, m) && Settled(m, outcomes)
    requires rs.tasks.Keys == w.graph.Keys && forall x :: x in w.graph ==> Matches(rs.tasks[x], outcomes[x])
    ensures forall x {:trigger SkippedRightly(w, rs, x)} :: x in w.graph ==> SkippedRightly(w, rs, x)
  {
    forall x | x in w.graph ensures SkippedRightly(w, rs, x) {
      SkippedIff(w, m, x);
      forall d | d in w.graph[x].deps ensures EndedBadly(m, d) <==> IsBad(rs, d) { assert d in w.graph; }
      SelectionAgrees(w.graph[x].deps, (d: string) => EndedBadly(m, d), (d: string) => IsBad(rs, d));
    }
  }

  /** A finished run's stream is accepted to its last event, and the reducer then holds for every task the status
      and the counters of the runtime's own outcome. */
  lemma FinishedStreamAccepted(
      w: Workload, id: string, version: string, ts: seq<Dag.Task>, rs: RunState, actors: seq<Scheduler.Actor>)
    returns (rs': RunState)
    requires Runs(w, ts) && ReadyToPlan(rs) && id != "" && version != "" && Scheduler.Run(w, actors).pc.Done?
    ensures var s := Scheduler.Run(w, actors);
      PublishAll(rs, (Header(id, version, ts) + s.emitted) + Footer(ts, s.outcomes)) == Ok(rs')
    ensures !rs'.status.Terminal() && Reports(w, Scheduler.Run(w, actors).outcomes, rs')
  {
    var outcomes := Scheduler.Run(w, actors).outcomes;
    var after := ConcurrentStreamAccepted(w, id, version, ts, rs, actors);
    var m := EndMatches(w, Scheduler.Run(w, actors), after, actors);
    OwnersAreRegistered(w, ts);
    rs' := FooterAccepted(after, ts, outcomes);
    AgentsTellAtEnd(w, ts, outcomes, Scheduler.Run(w, actors).emitted, after, rs');
    SkipsAreRight(w, m, outcomes, rs');
    PublishChain(rs, Header(id, version, ts) + Scheduler.Run(w, actors).emitted, after, Footer(ts, outcomes), rs');
  }

  lemma EndMatches(w: Workload, s: Scheduler.State, rs: RunState, actors: seq<Scheduler.Actor>) returns (m: Verdicts)
    requires Valid(w) && s == Scheduler.Run(w, actors) && s.pc.Done? && Follows(w, s, rs)
    ensures rs.tasks.Keys == s.outcomes.Keys == w.graph.Keys
    ensures forall x :: x in w.graph ==> Matches(rs.tasks[x], s.outcomes[x])
    ensures Solves(w, m) && Settled(m, s.outcomes)
  {
    m := EvaluationExists(w);
    SchedulerInvariant.InvariantAlways(w, m, actors);
    SchedulerTheorems.RunsEvaluate(w, m, actors);
    forall x | x in w.graph ensures Matches(rs.tasks[x], s.outcomes[x]) {
      assert Mirrors(w, s, rs.tasks, x);
    }
  }

  // ---------- The serial loop ----------

  function StepDrafts(t: Dag.Task, steps: seq<Step>, n: nat): seq<Draft>
    requires n <= |steps|
  {
    if n == 0 then [] else StepDrafts(t, steps, n - 1) + [TaskDraft(t, steps[n - 1].move)]
  }

  /** The events of one task in the serial loop. */
  function TaskBlock(w: Workload, t: Dag.Task, deps: seq<Outcome>): seq<Draft>
    requires |deps| == |t.deps|
  {
    if BlockedByFailure(t, deps) then [TaskDraft(t, Skip(SkipReason(t, deps)))]
    else [TaskDraft(t, Start)] + StepDrafts(t, w.body(t, deps).steps, |w.body(t, deps).steps|)
  }

  /** The events of the first n tasks in topological order. */
  function SerialEmission(w: Workload, m: Verdicts, n: nat): seq<Draft>
    requires SerialReach(w, m, n)
  {
    if n == 0 then []
    else
      assert SerialReachAt(w, m, n - 1);
      var t := w.graph[w.order[n - 1]];
      SerialEmission(w, m, n - 1) + TaskBlock(w, t, EndedOutcomes(m, t.deps))
  }

  /** One task of the serial loop: its events, and the outcome table after them. */
  method RunTask(w: Workload, t: Dag.Task, deps: seq<Outcome>, outcomes: map<string, Outcome>)
    returns (outcomes': map<string, Outcome>, events: seq<Draft>, raised: bool)
    requires |deps| == |t.deps|
    ensures events == TaskBlock(w, t, deps)
    ensures raised <==> Settle(w, t, deps).Raises?
    ensures outcomes'.Keys == outcomes.Keys + {t.id}
    ensures !raised ==> Settle(w, t, deps) == Ended(outcomes'[t.id])
    ensures forall id :: id in outcomes && id != t.id ==> outcomes'[id] == outcomes[id]
  {
    if BlockedByFailure(t, deps) {
      outcomes' := outcomes[t.id := SkippedOutcome(t, deps)];
      events := [TaskDraft(t, Skip(SkipReason(t, deps)))];
      return outcomes', events, false;
    }
    var trace := w.body(t, deps);
    var emitted: seq<Draft>;
    outcomes', emitted := RunBody(t, trace, outcomes[t.id := StartedOutcome(t, deps)]);
    events := [TaskDraft(t, Start)] + emitted;
    raised := trace.raised;
  }

  /** `async for draft in self._stream_task(...)`: the body's events, while it mutates its outcome. */
  method RunBody(t: Dag.Task, trace: Trace, outcomes: map<string, Outcome>)
    returns (outcomes': map<string, Outcome>, events: seq<Draft>)
    requires t.id in outcomes
    ensures events == StepDrafts(t, trace.steps, |trace.steps|)
    ensures outcomes' == outcomes[t.id := trace.last]
  {
    outcomes', events := outcomes, [];
    for i := 0 to |trace.steps|
      invariant events == StepDrafts(t, trace.steps, i)
      invariant t.id in outcomes' && outcomes' == outcomes[t.id := outcomes'[t.id]]
    {
      outcomes' := outcomes'[t.id := trace.steps[i].seen];
      events := events + [TaskDraft(t, trace.steps[i].move)];
    }
    outcomes' := outcomes'[t.id := trace.last];
  }

  /** `for task in serial_tasks`, stopped by the first body that raises. */
  method RunSerially(w: Workload, ghost m: Verdicts)
    returns (outcomes: map<string, Outcome>, emitted: seq<Draft>, raised: Option<string>)
    requires Valid(w) && Solves(w, m)
    ensures raised.None? ==> Settled(m, outcomes) && SerialEmitted(w, m, |w.order|, emitted)
    ensures raised.Some? ==> raised.value in m && m[raised.value].Raises?
    ensures raised.Some? ==> exists n: nat :: SerialEmitted(w, m, n, emitted)
  {
    outcomes, emitted, raised := map[], [], None;
    var n := 0;
    while n < |w.order|
      invariant SerialState(w, m, n, outcomes, emitted)
    {
      var stop;
      outcomes, emitted, stop := RunNext(w, m, n, outcomes, emitted);
      if stop {
        raised := Some(w.order[n]);
        return;
      }
      n := n + 1;
    }
    TableSettles(w, m, outcomes);
  }

  /** One turn of the serial loop, which goes no further once a body has raised. */
  method RunNext(w: Workload, ghost m: Verdicts, n: nat, outcomes: map<string, Outcome>, emitted: seq<Draft>)
    returns (outcomes': map<string, Outcome>, emitted': seq<Draft>, stop: bool)
    requires Valid(w) && Solves(w, m) && n < |w.order| && SerialState(w, m, n, outcomes, emitted)
    ensures !stop ==> SerialState(w, m, n + 1, outcomes', emitted')
    ensures stop ==> w.order[n] in m && m[w.order[n]].Raises?
    ensures SerialEmitted(w, m, n + 1, emitted')
  {
    SerialReads(w, m, n, outcomes);
    var t := w.graph[w.order[n]];
    var events;
    outcomes', events, stop := RunTask(w, t, ReadOutcomes(outcomes, t.deps), outcomes);
    SerialEmits(w, m, n, emitted, events);
    if !stop { SerialTableGrows(w, m, n, outcomes, outcomes'); }
    emitted' := emitted + events;
  }

  lemma TableSettles(w: Workload, m: Verdicts, outcomes: map<string, Outcome>)
    requires Valid(w) && Solves(w, m) && SerialTable(w, m, |w.order|, outcomes)
    ensures Settled(m, outcomes)
  {
    FirstTasksAre(w.order, |w.order|);
    TakeAll(w.order);
  }

  ghost predicate SerialEmitted(w: Workload, m: Verdicts, n: nat, emitted: seq<Draft>) {
    SerialReach(w, m, n) && emitted == SerialEmission(w, m, n)
  }

  /** The serial loop has reached its first n tasks: their dependencies ended, and so did all but the last. */
  ghost predicate SerialReach(w: Workload, m: Verdicts, n: nat) {
    && n <= |w.order|
    && (forall k {:trigger SerialReachAt(w, m, k)} :: 0 <= k < n ==> SerialReachAt(w, m, k))
    && (forall k {:trigger SerialPast(w, m, k)} :: 0 <= k < n - 1 ==> SerialPast(w, m, k))
  }

  ghost predicate SerialPast(w: Workload, m: Verdicts, k: int) {
    0 <= k < |w.order| && w.order[k] in m && m[w.order[k]].Ended?
  }

  ghost predicate SerialReachAt(w: Workload, m: Verdicts, k: int) {
    0 <= k < |w.order| && w.order[k] in w.graph && AllEnded(m, w.graph[w.order[k]].deps)
  }

  /** The table after n tasks: exactly their verdicts. */
  ghost predicate SerialTable(w: Workload, m: Verdicts, n: nat, outcomes: map<string, Outcome>) {
    && n <= |w.order| && outcomes.Keys == FirstTasks(w.order, n)
    && forall id :: id in outcomes ==> id in m && m[id] == Ended(outcomes[id])
  }

  ghost function FirstTasks(order: seq<string>, n: nat): set<string>
    requires n <= |order|
  {
    if n == 0 then {} else FirstTasks(order, n - 1) + {order[n - 1]}
  }

  lemma {:induction false} FirstTasksAre(order: seq<string>, n: nat)
    requires n <= |order|
    ensures FirstTasks(order, n) == Elements(order[..n])
  {
    if n > 0 {
      FirstTasksAre(order, n - 1);
      TakeNext(order, n - 1);
    }
  }

  ghost predicate SerialState(w: Workload, m: Verdicts, n: nat, outcomes: map<string, Outcome>, emitted: seq<Draft>) {
    SerialTable(w, m, n, outcomes) && SerialEmitted(w, m, n, emitted)
  }

  lemma SerialReads(w: Workload, m: Verdicts, n: nat, outcomes: map<string, Outcome>)
    requires Valid(w) && Solves(w, m) && n < |w.order| && SerialReach(w, m, n) && SerialTable(w, m, n, outcomes)
    ensures SerialReach(w, m, n + 1) && SerialReachAt(w, m, n)
    ensures var t := w.graph[w.order[n]];
      && t.id == w.order[n] && ReadOutcomes(outcomes, t.deps) == EndedOutcomes(m, t.deps)
      && t.id in m && m[t.id] == Settle(w, t, ReadOutcomes(outcomes, t.deps))
  {
    assert Dag.FollowsDependencies(w.graph, w.order, n);
    FirstTasksAre(w.order, n);
    var t := w.graph[w.order[n]];
    assert SerialReachAt(w, m, n);
    if n > 0 {
      assert w.order[n - 1] in FirstTasks(w.order, n);
      assert SerialPast(w, m, n - 1);
    }
    assert m[t.id] == VerdictOf(w, m, t.id);
    assert ReadOutcomes(outcomes, t.deps) == EndedOutcomes(m, t.deps);
  }

  lemma SerialEmits(w: Workload, m: Verdicts, n: nat, emitted: seq<Draft>, events: seq<Draft>)
    requires n < |w.order| && SerialReach(w, m, n) && SerialReach(w, m, n + 1) && SerialReachAt(w, m, n)
    requires emitted == SerialEmission(w, m, n)
    requires var t := w.graph[w.order[n]]; events == TaskBlock(w, t, EndedOutcomes(m, t.deps))
    ensures emitted + events == SerialEmission(w, m, n + 1)
  {
  }

  lemma SerialTableGrows(
      w: Workload, m: Verdicts, n: nat, outcomes: map<string, Outcome>, outcomes': map<string, Outcome>)
    requires n < |w.order| && SerialTable(w, m, n, outcomes)
    requires w.order[n] in m && outcomes'.Keys == outcomes.Keys + {w.order[n]}
    requires m[w.order[n]] == Ended(outcomes'[w.order[n]])
    requires forall id :: id in outcomes && id != w.order[n] ==> outcomes'[id] == outcomes[id]
    ensures SerialTable(w, m, n + 1, outcomes')
  {
  }

  // ---------- The serial stream ----------

  ghost predicate SerialMirrors(
      w: Workload, m: Verdicts, done: set<string>, tasks: map<string, TaskState>, id: string)
  {
    && id in tasks && id in w.graph
    && if id in done then id in m && m[id].Ended? && Matches(tasks[id], m[id].outcome)
       else tasks[id] == FreshTask(w.graph[id])
  }

  ghost predicate SerialFollows(w: Workload, m: Verdicts, done: set<string>, rs: RunState) {
    && !rs.status.Terminal() && rs.workflow.Some? && rs.tasks.Keys == w.graph.Keys
    && forall id {:trigger SerialMirrors(w, m, done, rs.tasks, id)} ::
      id in w.graph ==> SerialMirrors(w, m, done, rs.tasks, id)
  }

  lemma NextStepAllowed(t: Dag.Task, steps: seq<Step>, n: nat) returns (x: TaskState)
    requires n < |steps| && ReplaySteps(t, steps, |steps|).Ok?
    ensures ReplaySteps(t, steps, n) == Ok(x) && ReplaySteps(t, steps, n + 1) == Ok(Moved(x, steps[n].move))
    ensures MoveAllowed(x.status, steps[n].move) && !x.status.Queued? && SamePlan(t, x)
  {
    LawfulPrefix(t, steps, n + 1);
    NeverQueuedAgain(t, steps, n);
    x := ReplaySteps(t, steps, n).value;
  }

  /** The reducer after the first n events of a started body. */
  ghost predicate StepsSeen(rs: RunState, t: Dag.Task, steps: seq<Step>, n: nat, rs': RunState)
    requires n <= |steps|
  {
    && PublishAll(rs, StepDrafts(t, steps, n)) == Ok(rs')
    && ReplaySteps(t, steps, n).Ok? && rs'.tasks == rs.tasks[t.id := ReplaySteps(t, steps, n).value]
    && rs'.status == rs.status && rs'.workflow == rs.workflow && rs'.agents.Keys == rs.agents.Keys
  }

  lemma NextStepSeen(rs: RunState, t: Dag.Task, steps: seq<Step>, n: nat, before: RunState, x: TaskState)
    returns (rs': RunState)
    requires n < |steps| && StepsSeen(rs, t, steps, n, before) && !rs.status.Terminal() && t.id != ""
    requires t.id in rs.tasks
    requires ReplaySteps(t, steps, n) == Ok(x) && ReplaySteps(t, steps, n + 1) == Ok(Moved(x, steps[n].move))
    requires MoveAllowed(x.status, steps[n].move) && !x.status.Queued? && SamePlan(t, x)
    ensures StepsSeen(rs, t, steps, n + 1, rs')
  {
    PublishOne(rs, StepDrafts(t, steps, n), TaskDraft(t, steps[n].move));
    rs' := TaskEventAccepted(before, t, steps[n].move);
  }

  lemma NoStepSeen(rs: RunState, t: Dag.Task, steps: seq<Step>)
    requires t.id in rs.tasks && rs.tasks[t.id] == Moved(FreshTask(t), Start)
    ensures StepsSeen(rs, t, steps, 0, rs)
  {
  }

  /** A body that has just been started on a task of the plan. */
  ghost predicate BodyStarted(rs: RunState, t: Dag.Task, steps: seq<Step>) {
    && ReplaySteps(t, steps, |steps|).Ok?
    && !rs.status.Terminal() && t.id != "" && t.id in rs.tasks && rs.tasks[t.id] == Moved(FreshTask(t), Start)
  }

  lemma OneMoreStepSeen(rs: RunState, t: Dag.Task, steps: seq<Step>, n: nat, before: RunState) returns (rs': RunState)
    requires n < |steps| && BodyStarted(rs, t, steps) && StepsSeen(rs, t, steps, n, before)
    ensures StepsSeen(rs, t, steps, n + 1, rs')
  {
    var x := NextStepAllowed(t, steps, n);
    rs' := NextStepSeen(rs, t, steps, n, before, x);
  }

  lemma {:induction false} StepsAccepted(rs: RunState, t: Dag.Task, steps: seq<Step>, n: nat) returns (rs': RunState)
    requires n <= |steps| && BodyStarted(rs, t, steps)
    ensures StepsSeen(rs, t, steps, n, rs')
  {
    if n == 0 {
      NoStepSeen(rs, t, steps);
      rs' := rs;
    } else {
      var before := StepsAccepted(rs, t, steps, n - 1);
      rs' := OneMoreStepSeen(rs, t, steps, n - 1, before);
    }
  }

  /** One task of the serial loop, seen by the reducer. */
  lemma TaskBlockAccepted(w: Workload, m: Verdicts, done: set<string>, rs: RunState, id: string) returns (rs': RunState)
    requires Dag.Closed(w.graph) && LawfulBody(w) && NamesGiven(w) && Solves(w, m)
    requires id in w.graph && id !in done && SerialFollows(w, m, done, rs)
    requires AllEnded(m, w.graph[id].deps) && forall d :: d in w.graph[id].deps ==> d in done
    ensures PublishAll(rs, TaskBlock(w, w.graph[id], EndedOutcomes(m, w.graph[id].deps))) == Ok(rs')
    ensures m[id].Ended? ==> SerialFollows(w, m, done + {id}, rs')
    ensures !rs'.status.Terminal() && rs'.agents.Keys == rs.agents.Keys
  {
    var t := w.graph[id];
    var deps := EndedOutcomes(m, t.deps);
    assert SerialMirrors(w, m, done, rs.tasks, id) && m[id] == VerdictOf(w, m, id);
    if BlockedByFailure(t, deps) {
      PublishOne(rs, [], TaskDraft(t, Skip(SkipReason(t, deps))));
      assert [] + [TaskDraft(t, Skip(SkipReason(t, deps)))] == TaskBlock(w, t, deps);
      rs' := TaskEventAccepted(rs, t, Skip(SkipReason(t, deps)));
    } else {
      SerialStartAllowed(w, m, done, rs, t);
      var started := TaskEventAccepted(rs, t, Start);
      var trace := w.body(t, deps);
      assert LawfulAt(w, id, deps);
      rs' := StepsAccepted(started, t, trace.steps, |trace.steps|);
      PublishOne(rs, [], TaskDraft(t, Start));
      assert [] + [TaskDraft(t, Start)] == [TaskDraft(t, Start)];
      PublishChain(rs, [TaskDraft(t, Start)], started, StepDrafts(t, trace.steps, |trace.steps|), rs');
    }
    if m[id].Ended? { SerialGrows(w, m, done, rs, rs', id); }
  }

  lemma SerialStartAllowed(w: Workload, m: Verdicts, done: set<string>, rs: RunState, t: Dag.Task)
    requires Dag.Closed(w.graph) && t.id in w.graph && w.graph[t.id] == t && SerialFollows(w, m, done, rs)
    requires AllEnded(m, t.deps) && !BlockedByFailure(t, EndedOutcomes(m, t.deps))
    requires forall d :: d in t.deps ==> d in done
    ensures DependenciesAllow(rs.tasks, FreshTask(t))
  {
    var deps := EndedOutcomes(m, t.deps);
    NoFailures(t.deps, deps);
    forall d | d in t.deps ensures Clears(rs.tasks, FreshTask(t), d) {
      assert SerialMirrors(w, m, done, rs.tasks, d);
      var i :| 0 <= i < |t.deps| && t.deps[i] == d;
      assert deps[i] == m[d].outcome;
    }
  }

  lemma SerialGrows(w: Workload, m: Verdicts, done: set<string>, rs: RunState, rs': RunState, id: string)
    requires SerialFollows(w, m, done, rs) && id in w.graph && id in m && m[id].Ended?
    requires rs'.status == rs.status && rs'.workflow == rs.workflow && rs'.tasks.Keys == rs.tasks.Keys
    requires forall x :: x in rs.tasks && x != id ==> rs'.tasks[x] == rs.tasks[x]
    requires id in rs'.tasks && Matches(rs'.tasks[id], m[id].outcome)
    ensures SerialFollows(w, m, done + {id}, rs')
  {
    forall x | x in w.graph ensures SerialMirrors(w, m, done + {id}, rs'.tasks, x) {
      assert SerialMirrors(w, m, done, rs.tasks, x);
    }
  }

  /** The n-th turn of the serial loop. */
  lemma SerialTurn(w: Workload, m: Verdicts, n: nat)
    requires Valid(w) && 0 < n && SerialReach(w, m, n)
    ensures SerialReachAt(w, m, n - 1)
    ensures var id, before := w.order[n - 1], FirstTasks(w.order, n - 1);
      id !in before && forall d :: d in w.graph[id].deps ==> d in before
    ensures FirstTasks(w.order, n) == FirstTasks(w.order, n - 1) + {w.order[n - 1]}
  {
    assert SerialReachAt(w, m, n - 1) && Dag.FollowsDependencies(w.graph, w.order, n - 1);
    UniquePrefix(w.order, n - 1);
    FirstTasksAre(w.order, n - 1);
  }

  lemma SerialTurnAccepted(w: Workload, m: Verdicts, rs: RunState, n: nat, before: RunState) returns (rs': RunState)
    requires Valid(w) && LawfulBody(w) && NamesGiven(w) && Solves(w, m) && SerialReach(w, m, n) && 0 < n
    requires SerialReach(w, m, n - 1) && PublishAll(rs, SerialEmission(w, m, n - 1)) == Ok(before)
    requires SerialFollows(w, m, FirstTasks(w.order, n - 1), before)
    ensures PublishAll(rs, SerialEmission(w, m, n)) == Ok(rs')
    ensures SerialPast(w, m, n - 1) ==> SerialFollows(w, m, FirstTasks(w.order, n), rs')
    ensures !rs'.status.Terminal() && rs'.agents.Keys == before.agents.Keys
  {
    SerialTurn(w, m, n);
    rs' := TaskBlockAccepted(w, m, FirstTasks(w.order, n - 1), before, w.order[n - 1]);
    PublishChain(rs, SerialEmission(w, m, n - 1), before,
                 TaskBlock(w, w.graph[w.order[n - 1]], EndedOutcomes(m, w.graph[w.order[n - 1]].deps)), rs');
  }

  /** The reducer after the first n tasks of the serial loop. */
  ghost predicate SerialAccepted(w: Workload, m: Verdicts, rs: RunState, n: nat, rs': RunState)
    requires SerialReach(w, m, n)
  {
    && PublishAll(rs, SerialEmission(w, m, n)) == Ok(rs')
    && !rs'.status.Terminal() && rs'.agents.Keys == rs.agents.Keys
    && (n == 0 || SerialPast(w, m, n - 1) ==> SerialFollows(w, m, FirstTasks(w.order, n), rs'))
  }

  lemma SerialStart(w: Workload, m: Verdicts, rs: RunState)
    requires SerialFollows(w, m, {}, rs) && SerialReach(w, m, 0)
    ensures SerialAccepted(w, m, rs, 0, rs)
  {
  }

  lemma SerialNext(w: Workload, m: Verdicts, rs: RunState, n: nat, before: RunState) returns (rs': RunState)
    requires Valid(w) && LawfulBody(w) && NamesGiven(w) && Solves(w, m) && 0 < n && SerialReach(w, m, n)
    requires SerialReach(w, m, n - 1) && SerialAccepted(w, m, rs, n - 1, before)
    requires SerialFollows(w, m, FirstTasks(w.order, n - 1), before)
    ensures SerialAccepted(w, m, rs, n, rs')
  {
    rs' := SerialTurnAccepted(w, m, rs, n, before);
  }

  lemma SerialReachEarlier(w: Workload, m: Verdicts, n: nat, k: nat)
    requires SerialReach(w, m, n) && k < n
    ensures SerialReach(w, m, k) && (0 < k ==> SerialPast(w, m, k - 1))
  {
    if 0 < k { assert SerialPast(w, m, k - 1); }
  }

  lemma SerialEmissionAccepted(w: Workload, m: Verdicts, rs: RunState, n: nat) returns (rs': RunState)
    requires Valid(w) && LawfulBody(w) && NamesGiven(w) && Solves(w, m) && SerialReach(w, m, n)
    requires SerialFollows(w, m, {}, rs)
    ensures SerialAccepted(w, m, rs, n, rs')
  {
    rs' := rs;
    if n > 0 { SerialReachEarlier(w, m, n, 0); }
    SerialStart(w, m, rs);
    for k := 0 to n
      invariant SerialReach(w, m, k) && SerialAccepted(w, m, rs, k, rs')
    {
      SerialReachEarlier(w, m, n, k);
      if k + 1 < n { SerialReachEarlier(w, m, n, k + 1); }
      rs' := SerialNext(w, m, rs, k + 1, rs');
    }
  }

  lemma SerialBegins(w: Workload, m: Verdicts, rs: RunState)
    requires Follows(w, Scheduler.Init(w), rs)
    ensures SerialFollows(w, m, {}, rs)
  {
    forall x | x in w.graph ensures SerialMirrors(w, m, {}, rs.tasks, x) {
      assert Mirrors(w, Scheduler.Init(w), rs.tasks, x);
    }
  }

  /** The serial loop's stream is accepted: up to the body that raised, or to its last closing event. */
  lemma SerialStreamAccepted(
      w: Workload, m: Verdicts, id: string, version: string, ts: seq<Dag.Task>, rs: RunState, n: nat)
    returns (rs': RunState)
    requires Runs(w, ts) && ReadyToPlan(rs) && id != "" && version != "" && Solves(w, m) && SerialReach(w, m, n)
    ensures PublishAll(rs, Header(id, version, ts) + SerialEmission(w, m, n)) == Ok(rs')
    ensures !rs'.status.Terminal()
    ensures rs'.agents.Keys == Owners(w) && Agents.Tracks(w, SerialEmission(w, m, n), rs')
    ensures (n == 0 || SerialPast(w, m, n - 1)) ==> SerialFollows(w, m, FirstTasks(w.order, n), rs')
  {
    var planned := HeaderAccepted(w, id, version, ts, rs);
    SerialBegins(w, m, planned);
    rs' := SerialEmissionAccepted(w, m, planned, n);
    PublishChain(rs, Header(id, version, ts), planned, SerialEmission(w, m, n), rs');
    SerialEmitsTaskEvents(w, m, n);
    Agents.StreamsTrack(w, planned, SerialEmission(w, m, n));
  }

  lemma {:induction false} StepDraftsAreTaskEvents(w: Workload, t: Dag.Task, steps: seq<Step>, n: nat)
    requires n <= |steps| && t.id in w.graph && w.graph[t.id] == t
    ensures Agents.TaskEvents(w, StepDrafts(t, steps, n))
  {
    if n > 0 {
      StepDraftsAreTaskEvents(w, t, steps, n - 1);
      Agents.TaskEventsAppend(w, StepDrafts(t, steps, n - 1), [TaskDraft(t, steps[n - 1].move)]);
    }
  }

  lemma BlockIsTaskEvents(w: Workload, t: Dag.Task, deps: seq<Outcome>)
    requires |deps| == |t.deps| && t.id in w.graph && w.graph[t.id] == t
    ensures Agents.TaskEvents(w, TaskBlock(w, t, deps))
  {
    if !BlockedByFailure(t, deps) {
      var steps := w.body(t, deps).steps;
      StepDraftsAreTaskEvents(w, t, steps, |steps|);
      Agents.TaskEventsAppend(w, [TaskDraft(t, Start)], StepDrafts(t, steps, |steps|));
    }
  }

  lemma {:induction false} SerialEmitsTaskEvents(w: Workload, m: Verdicts, n: nat)
    requires Valid(w) && SerialReach(w, m, n)
    ensures Agents.TaskEvents(w, SerialEmission(w, m, n))
  {
    if n > 0 {
      SerialReachEarlier(w, m, n, n - 1);
      SerialEmitsTaskEvents(w, m, n - 1);
      assert SerialReachAt(w, m, n - 1);
      var t := w.graph[w.order[n - 1]];
      BlockIsTaskEvents(w, t, EndedOutcomes(m, t.deps));
      Agents.TaskEventsAppend(w, SerialEmission(w, m, n - 1), TaskBlock(w, t, EndedOutcomes(m, t.deps)));
    }
  }

  lemma FinishedSerialStreamAccepted(
      w: Workload, m: Verdicts, id: string, version: string, ts: seq<Dag.Task>, rs: RunState,
      outcomes: map<string, Outcome>)
    returns (rs': RunState)
    requires Runs(w, ts) && ReadyToPlan(rs) && id != "" && version != "" && Solves(w, m)
    requires SerialReach(w, m, |w.order|) && Settled(m, outcomes)
    ensures
      PublishAll(rs, (Header(id, version, ts) + SerialEmission(w, m, |w.order|)) + Footer(ts, outcomes)) == Ok(rs')
    ensures !rs'.status.Terminal() && Reports(w, outcomes, rs')
  {
    NonEmptyOrder(w, ts);
    SettledIsPast(w, m, outcomes);
    var after := SerialStreamAccepted(w, m, id, version, ts, rs, |w.order|);
    SerialEndMatches(w, m, outcomes, after);
    OwnersAreRegistered(w, ts);
    rs' := FooterAccepted(after, ts, outcomes);
    AgentsTellAtEnd(w, ts, outcomes, SerialEmission(w, m, |w.order|), after, rs');
    SkipsAreRight(w, m, outcomes, rs');
    PublishChain(rs, Header(id, version, ts) + SerialEmission(w, m, |w.order|), after, Footer(ts, outcomes), rs');
  }

  lemma SettledIsPast(w: Workload, m: Verdicts, outcomes: map<string, Outcome>)
    requires Settled(m, outcomes) && |w.order| > 0 && w.order[|w.order| - 1] in m
    ensures SerialPast(w, m, |w.order| - 1)
  {
  }

  lemma SerialEndMatches(w: Workload, m: Verdicts, outcomes: map<string, Outcome>, rs: RunState)
    requires Valid(w) && Settled(m, outcomes) && m.Keys == w.graph.Keys
    requires SerialFollows(w, m, FirstTasks(w.order, |w.order|), rs)
    ensures rs.tasks.Keys == outcomes.Keys && forall x :: x in w.graph ==> Matches(rs.tasks[x], outcomes[x])
  {
    FirstTasksAre(w.order, |w.order|);
    TakeAll(w.order);
    forall x | x in w.graph ensures Matches(rs.tasks[x], outcomes[x]) {
      assert SerialMirrors(w, m, FirstTasks(w.order, |w.order|), rs.tasks, x);
      assert x in Elements(w.order) && m[x] == Ended(outcomes[x]);
    }
  }

  lemma NonEmptyOrder(w: Workload, ts: seq<Dag.Task>)
    requires Runs(w, ts)
    ensures |w.order| > 0 && w.order[|w.order| - 1] in w.graph
  {
    assert ts[0].id in Elements(w.order);
    assert w.order[|w.order| - 1] in Elements(w.order);
  }

  /** The serial loop and every interleaving of the concurrent one leave the same outcome table. */
  lemma SerialAgreesWithConcurrent(
      w: Workload, m: Verdicts, outcomes: map<string, Outcome>, slots: nat, actors: seq<Scheduler.Actor>)
    requires Valid(w) && Solves(w, m) && Settled(m, outcomes) && slots >= 1
    requires Scheduler.Over(Scheduler.Run(w.(slots := slots), actors))
    ensures Scheduler.Run(w.(slots := slots), actors).pc.Done?
    ensures Scheduler.Run(w.(slots := slots), actors).outcomes == outcomes
  {
    var w' := w.(slots := slots);
    SchedulerTheorems.SameEvaluation(w, w', m);
    SchedulerTheorems.EndIsSettled(w', m, actors);
    SchedulerTheorems.SettledIsFunctional(m, Scheduler.Run(w', actors).outcomes, outcomes);
  }
}
