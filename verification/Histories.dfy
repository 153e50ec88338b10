/** What a run state says of the stream that led to it: every task's record is the fold of its own moves, every agent's
    the trace of the events that touch it, and the run's status its last run-level event's. */
module Histories {
  import opened Common
  import opened Events
  import opened Reducer

  // ---------- A task's record is the fold of its own moves ----------

  /** The moves of one task in a stream, whatever stands between them. */
  function MovesOn(drafts: seq<Draft>, id: string): seq<Move> {
    if drafts == [] then []
    else
      var d := drafts[|drafts| - 1];
      MovesOn(drafts[..|drafts| - 1], id)
      + (if d.payload.OnTask? && d.payload.taskId == id then [d.payload.move] else [])
  }

  lemma {:induction false} MovesAppend(a: seq<Draft>, b: seq<Draft>, id: string)
    ensures MovesOn(a + b, id) == MovesOn(a, id) + MovesOn(b, id)
  {
    if b == [] {
      assert a + b == a;
    } else {
      FrontOfSum(a, b);
      MovesAppend(a, b[..|b| - 1], id);
    }
  }

  function PlayMoves(t: TaskState, moves: seq<Move>): TaskState {
    if moves == [] then t else Moved(PlayMoves(t, moves[..|moves| - 1]), moves[|moves| - 1])
  }

  predicate LegalMoves(t: TaskState, moves: seq<Move>) {
    moves == [] ||
    (LegalMoves(t, moves[..|moves| - 1])
     && MoveAllowed(PlayMoves(t, moves[..|moves| - 1]).status, moves[|moves| - 1]))
  }

  lemma OneMoreMove(t: TaskState, moves: seq<Move>, m: Move)
    ensures PlayMoves(t, moves + [m]) == Moved(PlayMoves(t, moves), m)
    ensures LegalMoves(t, moves + [m]) <==> LegalMoves(t, moves) && MoveAllowed(PlayMoves(t, moves).status, m)
  {
    assert (moves + [m])[..|moves|] == moves;
  }

  /** In any accepted stream, from a planned workflow on, every task goes through its own moves and nothing else. */
  lemma {:induction false} TasksFollowTheirMoves(rs: RunState, drafts: seq<Draft>, id: string)
    requires rs.workflow.Some? && id in rs.tasks && PublishAll(rs, drafts).Ok?
    ensures var rs' := PublishAll(rs, drafts).value;
      && rs'.workflow.Some? && id in rs'.tasks && LegalMoves(rs.tasks[id], MovesOn(drafts, id))
      && rs'.tasks[id] == PlayMoves(rs.tasks[id], MovesOn(drafts, id))
  {
    if drafts != [] {
      var n := |drafts| - 1;
      TasksFollowTheirMoves(rs, drafts[..n], id);
      OneEventOn(PublishAll(rs, drafts[..n]).value, drafts[n], id);
      if drafts[n].payload.OnTask? && drafts[n].payload.taskId == id {
        OneMoreMove(rs.tasks[id], MovesOn(drafts[..n], id), drafts[n].payload.move);
      } else {
        assert MovesOn(drafts, id) == MovesOn(drafts[..n], id);
      }
    }
  }

  lemma OneEventOn(rs: RunState, d: Draft, id: string)
    requires rs.workflow.Some? && id in rs.tasks && Publish(rs, d).Ok?
    ensures var rs' := Publish(rs, d).value;
      && rs'.workflow.Some? && id in rs'.tasks
      && if d.payload.OnTask? && d.payload.taskId == id
         then MoveAllowed(rs.tasks[id].status, d.payload.move) && rs'.tasks[id] == Moved(rs.tasks[id], d.payload.move)
         else rs'.tasks[id] == rs.tasks[id]
  {
    var e := Stamp(rs, d);
    if d.payload.OnTask? {
      TaskEventEffect(rs, e);
    } else if d.payload.WorkflowPlanned? {
      PlanEffect(rs, e);
      assert false;
    } else {
      OtherEffect(rs, e);
    }
  }

  // ---------- Events of tasks without dependencies ----------

  /** The event is its owner's, of a planned task without dependencies. */
  predicate OfFreeTask(rs: RunState, d: Draft) {
    && d.payload.OnTask? && d.payload.taskId != "" && d.payload.taskId in rs.tasks
    && rs.tasks[d.payload.taskId].deps == [] && d.agent == Some(rs.tasks[d.payload.taskId].agent)
  }

  ghost predicate AllOfFreeTasks(rs: RunState, drafts: seq<Draft>) {
    forall i :: 0 <= i < |drafts| ==> OfFreeTask(rs, drafts[i])
  }

  ghost predicate AllLegal(rs: RunState, drafts: seq<Draft>) {
    forall id {:trigger MovesOn(drafts, id)} :: id in rs.tasks ==> LegalMoves(rs.tasks[id], MovesOn(drafts, id))
  }

  lemma LegalPrefix(rs: RunState, drafts: seq<Draft>)
    requires drafts != [] && AllLegal(rs, drafts)
    ensures AllLegal(rs, drafts[..|drafts| - 1])
  {
    var n := |drafts| - 1;
    forall id | id in rs.tasks ensures LegalMoves(rs.tasks[id], MovesOn(drafts[..n], id)) {
      assert LegalMoves(rs.tasks[id], MovesOn(drafts, id));
      if drafts[n].payload.OnTask? && drafts[n].payload.taskId == id {
        OneMoreMove(rs.tasks[id], MovesOn(drafts[..n], id), drafts[n].payload.move);
      } else {
        assert MovesOn(drafts, id) == MovesOn(drafts[..n], id);
      }
    }
  }

  lemma {:induction false} MovesKeepOwners(t: TaskState, moves: seq<Move>)
    ensures PlayMoves(t, moves).agent == t.agent && PlayMoves(t, moves).deps == t.deps
  {
    if moves != [] { MovesKeepOwners(t, moves[..|moves| - 1]); }
  }

  lemma FreeEventAccepted(rs: RunState, d: Draft)
    requires !rs.status.Terminal() && OfFreeTask(rs, d)
    requires MoveAllowed(rs.tasks[d.payload.taskId].status, d.payload.move)
    ensures Publish(rs, d).Ok? && !Publish(rs, d).value.status.Terminal()
  {
  }

  /** Each task's own moves being legal is all that acceptance takes. */
  lemma {:induction false} FreeTasksAccepted(rs: RunState, drafts: seq<Draft>)
    requires !rs.status.Terminal() && rs.workflow.Some? && AllOfFreeTasks(rs, drafts) && AllLegal(rs, drafts)
    ensures PublishAll(rs, drafts).Ok? && !PublishAll(rs, drafts).value.status.Terminal()
  {
    if drafts != [] {
      var n, d := |drafts| - 1, drafts[|drafts| - 1];
      LegalPrefix(rs, drafts);
      FreeTasksAccepted(rs, drafts[..n]);
      assert OfFreeTask(rs, d);
      var id := d.payload.taskId;
      TasksFollowTheirMoves(rs, drafts[..n], id);
      MovesKeepOwners(rs.tasks[id], MovesOn(drafts[..n], id));
      assert LegalMoves(rs.tasks[id], MovesOn(drafts, id));
      OneMoreMove(rs.tasks[id], MovesOn(drafts[..n], id), d.payload.move);
      FreeEventAccepted(PublishAll(rs, drafts[..n]).value, d);
    }
  }

  /** Events on tasks that have nothing to wait for are accepted exactly when each task's own moves are legal, however
      the tasks' events are mixed. */
  lemma FreeTasksAcceptedIff(rs: RunState, drafts: seq<Draft>)
    requires !rs.status.Terminal() && rs.workflow.Some? && AllOfFreeTasks(rs, drafts)
    ensures PublishAll(rs, drafts).Ok? <==> AllLegal(rs, drafts)
  {
    if PublishAll(rs, drafts).Ok? {
      forall id | id in rs.tasks ensures LegalMoves(rs.tasks[id], MovesOn(drafts, id)) {
        TasksFollowTheirMoves(rs, drafts, id);
      }
    } else if AllLegal(rs, drafts) {
      FreeTasksAccepted(rs, drafts);
    }
  }

  // ---------- Which histories are legal ----------

  predicate EndsTask(m: Move) {
    m.Finish? || m.Fail? || m.Skip?
  }

  /** What may come after what in one task's history, without naming a status. */
  predicate MayFollow(prev: Option<Move>, m: Move) {
    match m
    case Start => prev.None?
    case Skip(_) => prev.None?
    case TurnDone(_) => prev == Some(TurnStart)
    case ToolDone => prev == Some(ToolStart)
    case ToolReject(_) => prev == Some(ToolStart)
    case ToolFail(_) => prev == Some(ToolStart)
    case Fail(_, _) => prev.Some? && !EndsTask(prev.value)
    case _ => prev.Some? && !EndsTask(prev.value) && !prev.value.TurnStart? && !prev.value.ToolStart?
  }

  function LastMove(moves: seq<Move>): Option<Move> {
    if moves == [] then None else Some(moves[|moves| - 1])
  }

  /** The status a history leads to, by its last move. */
  function StatusOf(last: Option<Move>): TaskStatus {
    match last
    case None => Queued
    case Some(TurnStart) => WaitingModel
    case Some(ToolStart) => WaitingTool
    case Some(Finish(partial, _, _)) => if partial then Partial else TaskStatus.Complete
    case Some(Fail(_, _)) => Failed
    case Some(Skip(_)) => Skipped
    case Some(_) => Running
  }

  ghost predicate FollowsAt(moves: seq<Move>, k: nat) {
    k < |moves| && MayFollow(LastMove(moves[..k]), moves[k])
  }

  ghost predicate AllFollow(moves: seq<Move>) {
    forall k: nat :: k < |moves| ==> FollowsAt(moves, k)
  }

  lemma AllFollowStep(moves: seq<Move>)
    requires moves != []
    ensures AllFollow(moves) <==> AllFollow(moves[..|moves| - 1]) && FollowsAt(moves, |moves| - 1)
  {
    var n := |moves| - 1;
    forall k: nat | k < n ensures FollowsAt(moves, k) <==> FollowsAt(moves[..n], k) {
      assert moves[..n][..k] == moves[..k];
    }
    if AllFollow(moves[..n]) && FollowsAt(moves, n) {
      forall k: nat | k < |moves| ensures FollowsAt(moves, k) {
        if k < n { assert FollowsAt(moves[..n], k); }
      }
    }
    if AllFollow(moves) {
      forall k: nat | k < n ensures FollowsAt(moves[..n], k) { assert FollowsAt(moves, k); }
    }
  }

  /** From a fresh record the legal histories are those in which every move may follow the one before, and the last one
      decides the status. */
  lemma {:induction false} LegalIff(t: TaskState, moves: seq<Move>)
    requires t.status.Queued?
    ensures LegalMoves(t, moves) <==> AllFollow(moves)
    ensures LegalMoves(t, moves) ==> PlayMoves(t, moves).status == StatusOf(LastMove(moves))
  {
    if moves != [] {
      var n := |moves| - 1;
      LegalIff(t, moves[..n]);
      AllFollowStep(moves);
      if LegalMoves(t, moves[..n]) { StatusAllows(PlayMoves(t, moves[..n]), LastMove(moves[..n]), moves[n]); }
    }
  }

  lemma StatusAllows(x: TaskState, last: Option<Move>, m: Move)
    requires x.status == StatusOf(last)
    ensures MoveAllowed(x.status, m) <==> MayFollow(last, m)
    ensures MoveAllowed(x.status, m) ==> Moved(x, m).status == StatusOf(Some(m))
  {
  }

  // ---------- What a history leaves behind ----------

  function TurnsIn(moves: seq<Move>): nat {
    if moves == [] then 0 else TurnsIn(moves[..|moves| - 1]) + (if moves[|moves| - 1].TurnStart? then 1 else 0)
  }

  function CallsIn(moves: seq<Move>): nat {
    if moves == [] then 0 else CallsIn(moves[..|moves| - 1]) + (if moves[|moves| - 1].ToolStart? then 1 else 0)
  }

  /** The output a move brings, if any. */
  function OutputIn(m: Move): Option<string> {
    match m
    case TurnDone(output) => output
    case Reject(output, _) => output
    case Finish(_, output, _) => output
    case Fail(output, _) => output
    case _ => None
  }

  /** The last output brought. */
  function LastOutput(moves: seq<Move>): Option<string> {
    if moves == [] then None
    else if OutputIn(moves[|moves| - 1]).Some? then OutputIn(moves[|moves| - 1])
    else LastOutput(moves[..|moves| - 1])
  }

  /** The error a move reports, if any. */
  function ErrorIn(m: Move): Option<string> {
    match m
    case Reject(_, error) => Some(error)
    case ToolReject(error) => Some(error)
    case ToolFail(error) => Some(error)
    case Fail(_, error) => Some(error)
    case Skip(reason) => Some(reason)
    case Finish(_, _, note) => note
    case _ => None
  }

  /** An error is shown until the next move, and past a partial end that reports none of its own. */
  function LastError(moves: seq<Move>): Option<string> {
    if moves == [] then None
    else
      var m := moves[|moves| - 1];
      if ErrorIn(m).None? && m.Finish? && m.partial then LastError(moves[..|moves| - 1]) else ErrorIn(m)
  }

  predicate Tells(t: TaskState, moves: seq<Move>) {
    && t.status == StatusOf(LastMove(moves)) && t.turns == TurnsIn(moves) && t.toolCalls == CallsIn(moves)
    && t.output == LastOutput(moves) && t.error == LastError(moves)
  }

  predicate Untouched(t: TaskState) {
    t.status.Queued? && t.turns == 0 && t.toolCalls == 0 && t.output.None? && t.error.None?
  }

  lemma {:induction false} HistoriesTell(t: TaskState, moves: seq<Move>)
    requires Untouched(t) && LegalMoves(t, moves)
    ensures Tells(PlayMoves(t, moves), moves)
  {
    LegalIff(t, moves);
    if moves != [] { HistoriesTell(t, moves[..|moves| - 1]); }
  }

  /** In every accepted stream a task that had not begun has a legal history, and its record tells it. */
  lemma TasksTellTheirHistories(rs: RunState, drafts: seq<Draft>, id: string)
    requires rs.workflow.Some? && id in rs.tasks && Untouched(rs.tasks[id]) && PublishAll(rs, drafts).Ok?
    ensures AllFollow(MovesOn(drafts, id))
    ensures id in PublishAll(rs, drafts).value.tasks
    ensures Tells(PublishAll(rs, drafts).value.tasks[id], MovesOn(drafts, id))
  {
    TasksFollowTheirMoves(rs, drafts, id);
    LegalIff(rs.tasks[id], MovesOn(drafts, id));
    HistoriesTell(rs.tasks[id], MovesOn(drafts, id));
  }

  // ---------- Agents ----------

  /** Whose record an event touches: the owner of its task, or the agent it names. */
  predicate Touches(rs: RunState, d: Draft, agent: string) {
    match d.payload
    case OnTask(id, _) => id in rs.tasks && rs.tasks[id].agent == agent
    case LaneTool(_) => d.agent == Some(agent)
    case AgentStarted => d.agent == Some(agent)
    case AgentProgress => d.agent == Some(agent)
    case AgentCompleted => d.agent == Some(agent)
    case AgentFailed => d.agent == Some(agent)
    case _ => false
  }

  predicate StartsTool(d: Draft) {
    (d.payload.OnTask? || d.payload.LaneTool?) && d.payload.move.ToolStart?
  }

  /** What an agent shows after an event that touches it. */
  function ShownAfter(d: Draft): AgentStatus {
    if d.payload.AgentCompleted? then AgentComplete
    else if d.payload.AgentFailed? then AgentFailure
    else if StartsTool(d) then AgentWaitingTool
    else AgentRunning
  }

  predicate AtWork(s: AgentStatus) {
    s.AgentQueued? || s.AgentRunning? || s.AgentWaitingTool?
  }

  /** What an agent shows after a stream: what the last event that touches it says, unless the run was cancelled while
      the agent was at work. */
  function ShownIn(rs: RunState, drafts: seq<Draft>, agent: string): AgentStatus
    requires agent in rs.agents
  {
    if drafts == [] then rs.agents[agent].status
    else
      var front, d := drafts[..|drafts| - 1], drafts[|drafts| - 1];
      if Touches(rs, d, agent) then ShownAfter(d)
      else if d.payload.RunCancelled? && AtWork(ShownIn(rs, front, agent)) then AgentCancelled
      else ShownIn(rs, front, agent)
  }

  function CallsBy(rs: RunState, drafts: seq<Draft>, agent: string): nat {
    if drafts == [] then 0
    else
      var d := drafts[|drafts| - 1];
      CallsBy(rs, drafts[..|drafts| - 1], agent) + (if Touches(rs, d, agent) && StartsTool(d) then 1 else 0)
  }

  function EvidenceFor(drafts: seq<Draft>, agent: string): nat {
    if drafts == [] then 0
    else
      var d := drafts[|drafts| - 1];
      EvidenceFor(drafts[..|drafts| - 1], agent)
      + (if d.payload.EvidenceAdded? && d.agent == Some(agent) then 1 else 0)
  }

  /** An agent's record after a stream. */
  predicate AgentFollows(rs: RunState, drafts: seq<Draft>, agent: string, after: AgentState)
    requires agent in rs.agents
  {
    var before := rs.agents[agent];
    && after.role == before.role && after.lane == before.lane && after.status == ShownIn(rs, drafts, agent)
    && after.toolCalls == before.toolCalls + CallsBy(rs, drafts, agent)
    && after.evidence == before.evidence + EvidenceFor(drafts, agent)
  }

  /** One event, from the record `x` of an agent. */
  predicate AgentStep(rs: RunState, d: Draft, agent: string, x: AgentState, y: AgentState) {
    && y.role == x.role && y.lane == x.lane
    && y.status == (if Touches(rs, d, agent) then ShownAfter(d)
                    else if d.payload.RunCancelled? && AtWork(x.status) then AgentCancelled else x.status)
    && y.toolCalls == x.toolCalls + (if Touches(rs, d, agent) && StartsTool(d) then 1 else 0)
    && y.evidence == x.evidence + (if d.payload.EvidenceAdded? && d.agent == Some(agent) then 1 else 0)
  }

  lemma OneEventOnAgent(rs: RunState, d: Draft, agent: string)
    requires agent in rs.agents && Publish(rs, d).Ok?
    ensures var rs' := Publish(rs, d).value;
      agent in rs'.agents && AgentStep(rs, d, agent, rs.agents[agent], rs'.agents[agent])
  {
    if d.payload.OnTask? { TaskEventOnAgent(rs, d, agent); }
  }

  lemma TaskEventOnAgent(rs: RunState, d: Draft, agent: string)
    requires agent in rs.agents && d.payload.OnTask? && Publish(rs, d).Ok?
    ensures var rs' := Publish(rs, d).value;
      agent in rs'.agents && AgentStep(rs, d, agent, rs.agents[agent], rs'.agents[agent])
  {
  }

  /** In every accepted stream, from a planned workflow on, an agent's record is the trace of what touched it. */
  lemma {:induction false} AgentsTellTheirHistories(rs: RunState, drafts: seq<Draft>, agent: string)
    requires rs.workflow.Some? && agent in rs.agents && PublishAll(rs, drafts).Ok?
    ensures agent in PublishAll(rs, drafts).value.agents
    ensures AgentFollows(rs, drafts, agent, PublishAll(rs, drafts).value.agents[agent])
  {
    if drafts != [] {
      var n, d := |drafts| - 1, drafts[|drafts| - 1];
      AgentsTellTheirHistories(rs, drafts[..n], agent);
      var before := PublishAll(rs, drafts[..n]).value;
      OneEventOnAgent(before, d, agent);
      OwnersStay(rs, drafts[..n], d, agent);
    }
  }

  /** Tasks keep their owners, and no task comes after the plan. */
  lemma OwnersStay(rs: RunState, drafts: seq<Draft>, d: Draft, agent: string)
    requires rs.workflow.Some? && PublishAll(rs, drafts).Ok?
    ensures Touches(PublishAll(rs, drafts).value, d, agent) <==> Touches(rs, d, agent)
  {
    if d.payload.OnTask? {
      var id := d.payload.taskId;
      TasksStay(rs, drafts, id);
      if id in rs.tasks {
        TasksFollowTheirMoves(rs, drafts, id);
        MovesKeepOwners(rs.tasks[id], MovesOn(drafts, id));
      }
    }
  }

  lemma {:induction false} TasksStay(rs: RunState, drafts: seq<Draft>, id: string)
    requires rs.workflow.Some? && PublishAll(rs, drafts).Ok?
    ensures PublishAll(rs, drafts).value.workflow.Some?
    ensures id in PublishAll(rs, drafts).value.tasks <==> id in rs.tasks
  {
    if drafts != [] {
      TasksStay(rs, drafts[..|drafts| - 1], id);
      TasksStayOnce(PublishAll(rs, drafts[..|drafts| - 1]).value, drafts[|drafts| - 1], id);
    }
  }

  lemma TasksStayOnce(rs: RunState, d: Draft, id: string)
    requires rs.workflow.Some? && Publish(rs, d).Ok?
    ensures Publish(rs, d).value.workflow.Some? && (id in Publish(rs, d).value.tasks <==> id in rs.tasks)
  {
    var e := Stamp(rs, d);
    if d.payload.OnTask? {
      TaskEventEffect(rs, e);
    } else if d.payload.WorkflowPlanned? {
      PlanEffect(rs, e);
      assert false;
    } else {
      OtherEffect(rs, e);
    }
  }

  // ---------- The run itself ----------

  /** The status a run-level event stands for. */
  function RunStatusOf(p: Payload): Option<RunStatus> {
    match p
    case RunCreated(_) => Some(Planning)
    case RunStarted => Some(RunningRun)
    case RunPaused => Some(Paused)
    case RunResumed => Some(RunningRun)
    case RunSynthesizing => Some(Synthesizing)
    case RunCompleted => Some(RunComplete)
    case RunCancelled => Some(Cancelled)
    case RunFailed(_) => Some(RunFailure)
    case _ => None
  }

  /** What the last run-level event of a stream says. */
  function LastRunStatus(from: RunStatus, drafts: seq<Draft>): RunStatus {
    if drafts == [] then from
    else
      var s := RunStatusOf(drafts[|drafts| - 1].payload);
      if s.Some? then s.value else LastRunStatus(from, drafts[..|drafts| - 1])
  }

  /** In every accepted stream the run's status is what the last run-level event says. */
  lemma {:induction false} RunsTellTheirHistories(rs: RunState, drafts: seq<Draft>)
    requires PublishAll(rs, drafts).Ok?
    ensures PublishAll(rs, drafts).value.status == LastRunStatus(rs.status, drafts)
    ensures PublishAll(rs, drafts).value.lastSequence == rs.lastSequence + |drafts|
    ensures PublishAll(rs, drafts).value.spec == rs.spec
  {
    if drafts != [] {
      RunsTellTheirHistories(rs, drafts[..|drafts| - 1]);
      OneEventOnRun(PublishAll(rs, drafts[..|drafts| - 1]).value, drafts[|drafts| - 1]);
    }
  }

  lemma OneEventOnRun(rs: RunState, d: Draft)
    requires Publish(rs, d).Ok?
    ensures var s, rs' := RunStatusOf(d.payload), Publish(rs, d).value;
      && rs'.status == (if s.Some? then s.value else rs.status)
      && rs'.lastSequence == rs.lastSequence + 1 && rs'.spec == rs.spec
  {
  }

  // ---------- Which events are accepted ----------

  predicate KnownAgent(rs: RunState, d: Draft) {
    d.agent.Some? && d.agent.value in rs.agents
  }

  /** What an open run asks of an event. */
  predicate Acceptable(rs: RunState, d: Draft) {
    match d.payload
    case StageStarted(known) => known
    case StageCompleted(known) => known
    case CandidateUpdated(wellFormed) => wellFormed
    case EvidenceAdded(wellFormed) => wellFormed && KnownAgent(rs, d)
    case AgentRegistered(_, _) => d.agent.Some? && d.agent.value !in rs.agents
    case AgentStarted => KnownAgent(rs, d)
    case AgentProgress => KnownAgent(rs, d)
    case AgentCompleted => KnownAgent(rs, d)
    case AgentFailed => KnownAgent(rs, d)
    case LaneTool(_) => KnownAgent(rs, d)
    case WorkflowPlanned(id, version, planned) =>
      rs.workflow.None? && rs.tasks == map[] && id != "" && version != "" && Plannable(planned)
    case WorkflowCompleted => rs.workflow.Some? && forall id :: id in rs.tasks ==> rs.tasks[id].status.Terminal()
    case OnTask(id, m) =>
      && id != "" && id in rs.tasks && (d.agent.Some? ==> d.agent.value == rs.tasks[id].agent)
      && MoveAllowed(rs.tasks[id].status, m) && (m.Start? ==> DependenciesAllow(rs.tasks, rs.tasks[id]))
    case _ => true
  }

  /** An event is accepted exactly when the run is open and the event is acceptable. */
  lemma AcceptedIff(rs: RunState, d: Draft)
    ensures Publish(rs, d).Ok? <==> !rs.status.Terminal() && Acceptable(rs, d)
  {
  }
}
