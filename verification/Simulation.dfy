/** The reducer accepts every event stream the fixed-DAG runtime can emit: what the scheduler holds in its
    tables and what the reducer has computed from the events stay in step under every interleaving. */
module Simulation {
  import opened Common
  import opened Events
  import opened Reducer
  import opened Workload
  import opened Scheduler
  import opened SchedulerInvariant
  import opened Sorting
  import Dag

  // ---------- Task bodies the reducer can follow ----------

  /** The reducer's view of a started task after the first n events of its body. */
  function ReplaySteps(t: Dag.Task, steps: seq<Step>, n: nat): Result<TaskState, Violation>
    requires n <= |steps|
  {
    if n == 0 then Ok(Moved(FreshTask(t), Start))
    else
      var before := ReplaySteps(t, steps, n - 1);
      if before.Err? then before
      else if MoveAllowed(before.value.status, steps[n - 1].move) then Ok(Moved(before.value, steps[n - 1].move))
      else Err(BadTransition)
  }

  /** The reducer's record of an ended task says what the runtime's outcome record says; TASK_FAILED carries no output,
      so there the reducer keeps the last one it saw. */
  predicate Matches(t: TaskState, o: Outcome) {
    && t.status == o.status && o.status.Terminal() && t.turns == o.turns && t.toolCalls == o.toolCalls
    && t.error == o.error && (!o.status.Failed? ==> t.output == o.output)
  }

  /** A body whose events are legal moves and lead to its own last outcome. */
  predicate LawfulTrace(t: Dag.Task, trace: Trace) {
    var end := ReplaySteps(t, trace.steps, |trace.steps|);
    end.Ok? && (!trace.raised ==> Matches(end.value, trace.last))
  }

  ghost predicate LawfulBody(w: Workload) {
    forall id, deps :: LawfulAt(w, id, deps)
  }

  ghost predicate LawfulAt(w: Workload, id: string, deps: seq<Outcome>) {
    id in w.graph && |deps| == |w.graph[id].deps| ==> LawfulTrace(w.graph[id], w.body(w.graph[id], deps))
  }

  lemma {:induction false} LawfulPrefix(t: Dag.Task, steps: seq<Step>, n: nat)
    requires n <= |steps| && ReplaySteps(t, steps, |steps|).Ok?
    ensures ReplaySteps(t, steps, n).Ok?
    ensures n > 0 ==> var before := ReplaySteps(t, steps, n - 1);
      && before.Ok? && MoveAllowed(before.value.status, steps[n - 1].move)
      && ReplaySteps(t, steps, n) == Ok(Moved(before.value, steps[n - 1].move))
    decreases |steps| - n
  {
    if n < |steps| { LawfulPrefix(t, steps, n + 1); }
  }

  lemma MovesOn(x: TaskState, m: Move)
    requires !x.status.Queued? && MoveAllowed(x.status, m)
    ensures !Moved(x, m).status.Queued? && !Moved(x, m).status.Skipped?
    ensures Moved(x, m).id == x.id && Moved(x, m).agent == x.agent && Moved(x, m).deps == x.deps
    ensures Moved(x, m).allowFailed == x.allowFailed
  {
  }

  /** No move of a running body leads back to QUEUED, so none of them is a start or a skip; nor to SKIPPED. */
  lemma {:induction false} NeverQueuedAgain(t: Dag.Task, steps: seq<Step>, n: nat)
    requires n <= |steps| && ReplaySteps(t, steps, n).Ok?
    ensures !ReplaySteps(t, steps, n).value.status.Queued? && !ReplaySteps(t, steps, n).value.status.Skipped?
    ensures SamePlan(t, ReplaySteps(t, steps, n).value)
  {
    if n > 0 {
      NeverQueuedAgain(t, steps, n - 1);
      MovesOn(ReplaySteps(t, steps, n - 1).value, steps[n - 1].move);
    }
  }

  predicate SamePlan(t: Dag.Task, x: TaskState) {
    x.id == t.id && x.agent == t.agent && x.deps == t.deps && x.allowFailed == t.allowFailed
  }

  lemma {:induction false} NoFailures(names: seq<string>, deps: seq<Outcome>)
    requires |names| == |deps|
    ensures Failures(names, deps) == [] <==> forall i :: 0 <= i < |deps| ==> !deps[i].status.Bad()
  {
    if names != [] {
      var n := |names| - 1;
      NoFailures(names[..n], deps[..n]);
      if Failures(names, deps) == [] {
        forall i | 0 <= i < |deps| ensures !deps[i].status.Bad() {
          if i < n { assert deps[..n][i] == deps[i]; }
        }
      }
    }
  }

  /** Exactly when a task that does not tolerate failures has a bad dependency is it blocked. */
  lemma BlockedIff(t: Dag.Task, deps: seq<Outcome>)
    requires |deps| == |t.deps|
    ensures BlockedByFailure(t, deps) <==> !t.allowFailed && exists i :: 0 <= i < |deps| && deps[i].status.Bad()
  {
    NoFailures(t.deps, deps);
  }

  predicate EndedBadly(m: Verdicts, id: string) {
    id in m && m[id].Ended? && m[id].outcome.status.Bad()
  }

  /** The dependencies that failed or were skipped, in declared order. */
  function BadAmong(m: Verdicts, names: seq<string>): seq<string> {
    Selection(names, (d: string) => EndedBadly(m, d))
  }

  /** What a skipped task is told of them. */
  function BlockedText(names: seq<string>): string {
    "blocked by failed dependencies: " + Join(names)
  }

  lemma {:induction false} FailuresAreSelected(names: seq<string>, deps: seq<Outcome>, bad: string -> bool)
    requires |names| == |deps| && forall i :: 0 <= i < |names| ==> bad(names[i]) == deps[i].status.Bad()
    ensures Failures(names, deps) == Selection(names, bad)
  {
    if names != [] { FailuresAreSelected(names[..|names| - 1], deps[..|names| - 1], bad); }
  }

  /** Whatever its body, a task that ended was skipped exactly when it does not tolerate failures and a dependency
      failed or was skipped, and a skipped task's outcome says just which. */
  lemma SkippedIff(w: Workload, m: Verdicts, id: string)
    requires Dag.Closed(w.graph) && LawfulBody(w) && Solves(w, m) && id in w.graph && m[id].Ended?
    ensures m[id].outcome.status.Skipped? <==>
      !w.graph[id].allowFailed && exists d :: d in w.graph[id].deps && EndedBadly(m, d)
    ensures m[id].outcome.status.Skipped? ==>
      m[id].outcome == Outcome(Skipped, None, Some(BlockedText(BadAmong(m, w.graph[id].deps))), [], 0, 0, [])
  {
    var t := w.graph[id];
    assert m[id] == VerdictOf(w, m, id);
    var deps := EndedOutcomes(m, t.deps);
    FailuresAreSelected(t.deps, deps, (d: string) => EndedBadly(m, d));
    BlockedIff(t, deps);
    BadDependency(m, t.deps);
    if !BlockedByFailure(t, deps) {
      assert LawfulAt(w, id, deps);
      NeverQueuedAgain(t, w.body(t, deps).steps, |w.body(t, deps).steps|);
    }
  }

  lemma BadDependency(m: Verdicts, names: seq<string>)
    requires AllEnded(m, names)
    ensures (exists i :: 0 <= i < |names| && EndedOutcomes(m, names)[i].status.Bad()) <==>
      exists d :: d in names && EndedBadly(m, d)
  {
    if d :| d in names && EndedBadly(m, d) {
      var i :| 0 <= i < |names| && names[i] == d;
      assert EndedOutcomes(m, names)[i].status.Bad();
    }
    if i :| 0 <= i < |names| && EndedOutcomes(m, names)[i].status.Bad() {
      assert names[i] in names && EndedBadly(m, names[i]);
    }
  }

  // ---------- The relation ----------

  ghost predicate Mirrors(w: Workload, s: State, tasks: map<string, TaskState>, id: string) {
    && id in tasks && id in w.graph && SamePlan(w.graph[id], tasks[id])
    && if id in s.pending then tasks[id] == FreshTask(w.graph[id])
       else if id in s.workers then
         && s.workers[id].taken <= |s.workers[id].trace.steps|
         && ReplaySteps(w.graph[id], s.workers[id].trace.steps, s.workers[id].taken) == Ok(tasks[id])
       else if s.pc.Starting? && s.pc.t.id == id then tasks[id] == Moved(FreshTask(w.graph[id]), Start)
       else if s.pc.Aborted? && s.pc.t.id == id then true
       else id in s.outcomes && Matches(tasks[id], s.outcomes[id])
  }

  ghost predicate Follows(w: Workload, s: State, rs: RunState) {
    && !rs.status.Terminal() && rs.workflow.Some?
    && rs.tasks.Keys == w.graph.Keys
    && (forall id :: id in w.graph ==> w.graph[id].agent in rs.agents)
    && (forall id {:trigger Mirrors(w, s, rs.tasks, id)} :: id in w.graph ==> Mirrors(w, s, rs.tasks, id))
  }

  predicate NamesGiven(w: Workload) {
    "" !in w.graph
  }

  // ---------- Silent moves ----------

  lemma RetiringFollows(w: Workload, s: State, m: Verdicts, rs: RunState, t: Dag.Task, raised: bool)
    requires LawfulBody(w) && Invariant(w, s, m) && Follows(w, s, rs) && Justified(w, s, Retire(t, raised))
    ensures Follows(w, Perform(w, s, Retire(t, raised)), rs)
  {
    var s' := Perform(w, s, Retire(t, raised));
    HeadOfQueue(s);
    assert WorkerSound(w, s, m, t.id) && QueueMatches(s, t.id);
    forall id | id in w.graph ensures Mirrors(w, s', rs.tasks, id) {
      assert Mirrors(w, s, rs.tasks, id) && PlacedOnce(w, s, id);
      if id == t.id && !raised {
        assert LawfulAt(w, id, EndedOutcomes(m, t.deps));
      }
    }
  }

  lemma SilentMovesFollow(w: Workload, s: State, m: Verdicts, rs: RunState, d: Decision)
    requires LawfulBody(w) && Invariant(w, s, m) && Follows(w, s, rs) && Justified(w, s, d)
    requires d.Stay? || d.Goto? || d.EndSkip? || d.FinishStart? || d.Retire?
    ensures Follows(w, Perform(w, s, d), rs)
  {
    if d.Retire? {
      RetiringFollows(w, s, m, rs, d.t, d.raised);
    } else {
      forall id | id in w.graph ensures Mirrors(w, Perform(w, s, d), rs.tasks, id) {
        assert Mirrors(w, s, rs.tasks, id) && PlacedOnce(w, s, id);
      }
    }
  }

  lemma PumpFollows(w: Workload, s: State, m: Verdicts, rs: RunState, id: string)
    requires Invariant(w, s, m) && Follows(w, s, rs) && CanPump(s, id)
    ensures Follows(w, PumpStep(s, id), rs)
  {
    forall x | x in w.graph ensures Mirrors(w, PumpStep(s, id), rs.tasks, x) {
      assert Mirrors(w, s, rs.tasks, x) && PlacedOnce(w, s, x);
    }
  }

  // ---------- Moves that emit an event ----------

  ghost predicate DependenciesOver(tasks: map<string, TaskState>, t: Dag.Task) {
    forall d :: d in t.deps ==> d in tasks && tasks[d].status.Terminal()
  }

  lemma DependencySeen(w: Workload, s: State, m: Verdicts, rs: RunState, t: Dag.Task, i: nat)
    requires Invariant(w, s, m) && Follows(w, s, rs) && !s.pc.Aborted?
    requires Dag.Closed(w.graph) && t.id in w.graph && w.graph[t.id] == t && i < |t.deps|
    requires t.deps[i] in s.terminal
    ensures t.deps[i] in rs.tasks && rs.tasks[t.deps[i]].status == DependencyOutcomes(s, t)[i].status
    ensures rs.tasks[t.deps[i]].status.Terminal()
  {
    assert Mirrors(w, s, rs.tasks, t.deps[i]) && PlacedOnce(w, s, t.deps[i]);
    assert DependencyOutcomes(s, t)[i] == OutcomeAt(s.outcomes, t.deps[i]);
  }

  /** When a task's dependencies have ended, the scheduler's skip rule is the reducer's dependency check. */
  lemma StartIsAllowed(w: Workload, s: State, m: Verdicts, rs: RunState, t: Dag.Task)
    requires Invariant(w, s, m) && Follows(w, s, rs) && !s.pc.Aborted?
    requires t.id in w.graph && w.graph[t.id] == t && Dag.Closed(w.graph) && DependenciesTerminal(s, t)
    ensures DependenciesOver(rs.tasks, t)
    ensures DependenciesAllow(rs.tasks, FreshTask(t)) <==> !BlockedByFailure(t, DependencyOutcomes(s, t))
  {
    var deps := DependencyOutcomes(s, t);
    BlockedIff(t, deps);
    forall i | 0 <= i < |t.deps|
      ensures t.deps[i] in rs.tasks && rs.tasks[t.deps[i]].status == deps[i].status
      ensures rs.tasks[t.deps[i]].status.Terminal()
    {
      DependencySeen(w, s, m, rs, t, i);
    }
    if i :| 0 <= i < |deps| && deps[i].status.Bad() {
      assert !t.allowFailed ==> !Clears(rs.tasks, FreshTask(t), t.deps[i]);
    }
  }

  /** The scan has come to this task, which is pending. */
  predicate ComesTo(w: Workload, s: State, t: Dag.Task) {
    && s.pc.Scan? && s.pc.k < |w.order| && w.order[s.pc.k] == t.id
    && t.id in s.pending && t.id in w.graph && w.graph[t.id] == t
  }

  /** What the scan does with it: until its dependencies have ended it is passed over; then it is skipped exactly when
      the reducer would not let it start; otherwise full slots end the scan, an agent at work holds the task back, and
      else it starts. */
  ghost predicate DecidesAsReducer(w: Workload, s: State, rs: RunState, t: Dag.Task)
    requires s.pc.Scan?
  {
    var d, next := Decide(w, s), Scan(s.pc.k + 1, s.pc.progress);
    && t.id in rs.tasks && rs.tasks[t.id] == FreshTask(t)
    && if !DependenciesTerminal(s, t) then d == Goto(next)
       else
         && DependenciesOver(rs.tasks, t)
         && if !DependenciesAllow(rs.tasks, rs.tasks[t.id]) then d == SkipTask(t)
            else if |s.workers| >= w.slots then d == Goto(if s.pc.progress then Scan(0, false) else Wait)
            else if t.agent in s.busy then d == Goto(next)
            else d == BeginStart(t, s.pc.k + 1)
  }

  lemma ScanDecides(w: Workload, s: State, m: Verdicts, rs: RunState, t: Dag.Task)
    requires Invariant(w, s, m) && Follows(w, s, rs) && Dag.Closed(w.graph) && ComesTo(w, s, t)
    ensures DecidesAsReducer(w, s, rs, t)
  {
    assert Mirrors(w, s, rs.tasks, t.id) && PlacedOnce(w, s, t.id);
    if DependenciesTerminal(s, t) { StartIsAllowed(w, s, m, rs, t); }
  }

  /** The task move an emitting decision publishes. */
  function EmittedMove(s: State, d: Decision): Move
    requires d.SkipTask? || d.BeginStart? || d.Deliver?
  {
    match d
    case SkipTask(t) => Skip(SkipReason(t, DependencyOutcomes(s, t)))
    case BeginStart(_, _) => Start
    case Deliver(_, m) => m
  }

  /** The delivered event is the next one of its worker's trace. */
  lemma DeliveredIsNext(w: Workload, s: State, m: Verdicts, t: Dag.Task, move: Move)
    requires LawfulBody(w) && OutcomesAgree(w, s, m) && QueueSound(s) && Justified(w, s, Deliver(t, move))
    ensures var x := s.workers[t.id];
      && x.taken < |x.trace.steps| && x.trace.steps[x.taken].move == move && LawfulTrace(t, x.trace)
  {
    HeadOfQueue(s);
    assert WorkerSound(w, s, m, t.id) && QueueMatches(s, t.id);
    assert LawfulAt(w, t.id, EndedOutcomes(m, t.deps));
  }

  lemma DeliveredMoveIsAllowed(w: Workload, s: State, m: Verdicts, rs: RunState, t: Dag.Task, move: Move)
    requires LawfulBody(w) && Invariant(w, s, m) && Follows(w, s, rs) && Justified(w, s, Deliver(t, move))
    ensures var x := rs.tasks[t.id];
      && MoveAllowed(x.status, move) && !move.Start?
      && Mirrors(w, Perform(w, s, Deliver(t, move)), rs.tasks[t.id := Moved(x, move)], t.id)
  {
    assert Mirrors(w, s, rs.tasks, t.id) && PlacedOnce(w, s, t.id);
    DeliveredIsNext(w, s, m, t, move);
    var x := s.workers[t.id];
    LawfulPrefix(t, x.trace.steps, x.taken + 1);
    NeverQueuedAgain(t, x.trace.steps, x.taken);
    DeliveredMirrors(w, s, rs.tasks, t, move);
  }

  lemma DeliveredMirrors(w: Workload, s: State, tasks: map<string, TaskState>, t: Dag.Task, move: Move)
    requires t.id in s.workers && t.id in w.graph && w.graph[t.id] == t && t.id in tasks && t.id !in s.pending
    requires var x := s.workers[t.id];
      x.taken < |x.trace.steps| && ReplaySteps(t, x.trace.steps, x.taken + 1) == Ok(Moved(tasks[t.id], move))
    requires SamePlan(t, tasks[t.id])
    ensures Mirrors(w, Perform(w, s, Deliver(t, move)), tasks[t.id := Moved(tasks[t.id], move)], t.id)
  {
  }

  lemma EmittedMoveIsAllowed(w: Workload, s: State, m: Verdicts, rs: RunState, d: Decision)
    requires Valid(w) && LawfulBody(w) && Invariant(w, s, m) && Follows(w, s, rs) && Justified(w, s, d)
    requires d.SkipTask? || d.BeginStart? || d.Deliver?
    ensures var x := rs.tasks[d.t.id]; var move := EmittedMove(s, d);
      && MoveAllowed(x.status, move) && (move.Start? ==> DependenciesAllow(rs.tasks, x))
      && Mirrors(w, Perform(w, s, d), rs.tasks[d.t.id := Moved(x, move)], d.t.id)
  {
    if d.Deliver? {
      DeliveredMoveIsAllowed(w, s, m, rs, d.t, d.m);
    } else {
      assert Mirrors(w, s, rs.tasks, d.t.id) && PlacedOnce(w, s, d.t.id);
      if d.BeginStart? { StartIsAllowed(w, s, m, rs, d.t); }
    }
  }

  /** An allowed task event changes that one task, and touches nothing else the relation speaks of. */
  lemma TaskEventAccepted(rs: RunState, t: Dag.Task, move: Move) returns (rs': RunState)
    requires !rs.status.Terminal() && t.id != "" && t.id in rs.tasks && SamePlan(t, rs.tasks[t.id])
    requires MoveAllowed(rs.tasks[t.id].status, move)
    requires move.Start? ==> DependenciesAllow(rs.tasks, rs.tasks[t.id])
    ensures Publish(rs, TaskDraft(t, move)) == Ok(rs')
    ensures rs'.tasks == rs.tasks[t.id := Moved(rs.tasks[t.id], move)]
    ensures rs'.status == rs.status && rs'.workflow == rs.workflow && rs'.agents.Keys == rs.agents.Keys
  {
    rs' := Publish(rs, TaskDraft(t, move)).value;
  }

  lemma OthersStillMirror(
      w: Workload, s: State, m: Verdicts, tasks: map<string, TaskState>, d: Decision, x: TaskState, id: string)
    requires Invariant(w, s, m) && Justified(w, s, d) && (d.SkipTask? || d.BeginStart? || d.Deliver?)
    requires id != d.t.id && Mirrors(w, s, tasks, id)
    ensures Mirrors(w, Perform(w, s, d), tasks[d.t.id := x], id)
  {
  }

  lemma AllStillMirror(w: Workload, s: State, m: Verdicts, rs: RunState, d: Decision, x: TaskState)
    requires Invariant(w, s, m) && Justified(w, s, d) && (d.SkipTask? || d.BeginStart? || d.Deliver?)
    requires Follows(w, s, rs) && Mirrors(w, Perform(w, s, d), rs.tasks[d.t.id := x], d.t.id)
    ensures forall id {:trigger Mirrors(w, Perform(w, s, d), rs.tasks[d.t.id := x], id)} ::
      id in w.graph ==> Mirrors(w, Perform(w, s, d), rs.tasks[d.t.id := x], id)
  {
    forall id | id in w.graph && id != d.t.id ensures Mirrors(w, Perform(w, s, d), rs.tasks[d.t.id := x], id) {
      assert Mirrors(w, s, rs.tasks, id);
      OthersStillMirror(w, s, m, rs.tasks, d, x, id);
    }
  }

  lemma EmittedDraft(w: Workload, s: State, d: Decision)
    requires d.SkipTask? || d.BeginStart? || d.Deliver?
    ensures Perform(w, s, d).emitted == s.emitted + [TaskDraft(d.t, EmittedMove(s, d))]
  {
  }

  lemma FollowsFrom(w: Workload, s': State, rs: RunState, rs': RunState, tasks: map<string, TaskState>)
    requires !rs.status.Terminal() && rs.workflow.Some? && rs'.tasks == tasks && tasks.Keys == w.graph.Keys
    requires forall id :: id in w.graph ==> w.graph[id].agent in rs.agents
    requires rs'.status == rs.status && rs'.workflow == rs.workflow && rs'.agents.Keys == rs.agents.Keys
    requires forall id {:trigger Mirrors(w, s', tasks, id)} :: id in w.graph ==> Mirrors(w, s', tasks, id)
    ensures Follows(w, s', rs')
  {
  }

  lemma EmittedEventAccepted(w: Workload, s: State, m: Verdicts, rs: RunState, d: Decision) returns (rs': RunState)
    requires Valid(w) && NamesGiven(w) && LawfulBody(w)
    requires Invariant(w, s, m) && Follows(w, s, rs) && Justified(w, s, d)
    requires d.SkipTask? || d.BeginStart? || d.Deliver?
    ensures Publish(rs, TaskDraft(d.t, EmittedMove(s, d))) == Ok(rs')
    ensures rs'.tasks == rs.tasks[d.t.id := Moved(rs.tasks[d.t.id], EmittedMove(s, d))]
    ensures rs'.status == rs.status && rs'.workflow == rs.workflow && rs'.agents.Keys == rs.agents.Keys
  {
    assert Mirrors(w, s, rs.tasks, d.t.id);
    EmittedMoveIsAllowed(w, s, m, rs, d);
    rs' := TaskEventAccepted(rs, d.t, EmittedMove(s, d));
  }

  lemma EmittingMovesFollow(w: Workload, s: State, m: Verdicts, rs: RunState, d: Decision) returns (rs': RunState)
    requires Valid(w) && NamesGiven(w) && LawfulBody(w)
    requires Invariant(w, s, m) && Follows(w, s, rs) && Justified(w, s, d)
    requires d.SkipTask? || d.BeginStart? || d.Deliver?
    ensures Publish(rs, TaskDraft(d.t, EmittedMove(s, d))) == Ok(rs')
    ensures Follows(w, Perform(w, s, d), rs')
  {
    var x := Moved(rs.tasks[d.t.id], EmittedMove(s, d));
    rs' := EmittedEventAccepted(w, s, m, rs, d);
    EmittedMoveIsAllowed(w, s, m, rs, d);
    AllStillMirror(w, s, m, rs, d, x);
    FollowsFrom(w, Perform(w, s, d), rs, rs', rs.tasks[d.t.id := x]);
  }

  /** In step forever: whatever has been emitted so far, the reducer has accepted. */
  lemma {:induction false} EmissionsAccepted(w: Workload, rs0: RunState, actors: seq<Actor>) returns (rs: RunState)
    requires Valid(w) && NamesGiven(w) && LawfulBody(w) && Follows(w, Init(w), rs0)
    ensures PublishAll(rs0, Run(w, actors).emitted) == Ok(rs)
    ensures Follows(w, Run(w, actors), rs)
  {
    if actors == [] {
      rs := rs0;
    } else {
      var before, a := actors[..|actors| - 1], actors[|actors| - 1];
      rs := EmissionsAccepted(w, rs0, before);
      var m := EvaluationExists(w);
      InvariantAlways(w, m, before);
      var s := Run(w, before);
      if a.Pump? {
        if CanPump(s, a.id) { PumpFollows(w, s, m, rs, a.id); }
      } else {
        var d := Decide(w, s);
        DecisionsAreJustified(w, s);
        if d.SkipTask? || d.BeginStart? || d.Deliver? {
          EmittedDraft(w, s, d);
          PublishOne(rs0, s.emitted, TaskDraft(d.t, EmittedMove(s, d)));
          rs := EmittingMovesFollow(w, s, m, rs, d);
        } else {
          SilentMovesFollow(w, s, m, rs, d);
        }
      }
    }
  }

  /** In every state of every interleaving in which the scan has come to a pending task. */
  lemma AlwaysDecidesAsReducer(w: Workload, rs0: RunState, actors: seq<Actor>, t: Dag.Task) returns (rs: RunState)
    requires Valid(w) && NamesGiven(w) && LawfulBody(w) && Follows(w, Init(w), rs0) && ComesTo(w, Run(w, actors), t)
    ensures PublishAll(rs0, Run(w, actors).emitted) == Ok(rs)
    ensures DecidesAsReducer(w, Run(w, actors), rs, t)
  {
    rs := EmissionsAccepted(w, rs0, actors);
    var m := EvaluationExists(w);
    InvariantAlways(w, m, actors);
    ScanDecides(w, Run(w, actors), m, rs, t);
  }

  /** Nothing is skipped or started but the task the scan has come to. */
  lemma TakesUpOnlyIt(w: Workload, s: State)
    requires Dag.Closed(w.graph)
    ensures var d := Decide(w, s); d.SkipTask? || d.BeginStart? ==> ComesTo(w, s, d.t)
  {
  }
}
