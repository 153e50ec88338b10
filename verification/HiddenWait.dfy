/** A run of the turn loop in which an agent waits for a tool and does not show it. */
module HiddenWait {
  import opened Common
  import opened Events
  import opened Reducer
  import opened Workload
  import opened Simulation
  import opened Scheduler
  import opened Agents
  import opened FixedDagStream
  import opened WaitingAgents
  import Dag
  import Provenance
  import TurnLoop

  // ---------- Three tasks on two agents ----------

  /** f and x start at once on agents of their own; b shares x's agent and is skipped when f fails. */
  ghost predicate Trio(w: Workload, f: Dag.Task, x: Dag.Task, b: Dag.Task) {
    && w.order == [f.id, x.id, b.id] && w.graph == map[f.id := f, x.id := x, b.id := b] && w.slots == 2
    && f.id != x.id && f.id != b.id && x.id != b.id
    && f.deps == [] && x.deps == [] && b.deps == [f.id] && !b.allowFailed
    && f.agent != x.agent && b.agent == x.agent
  }

  /** f and x run, with i and j events delivered, and b waits. */
  ghost predicate Both(w: Workload, f: Dag.Task, x: Dag.Task, b: Dag.Task, s: State, i: nat, j: nat) {
    && s.pending == {b.id} && s.terminal == {} && s.busy == {f.agent, x.agent} && s.queue == []
    && s.workers == map[f.id := Worker(w.body(f, []), i, i), x.id := Worker(w.body(x, []), j, j)]
  }

  lemma RunOne(w: Workload, actors: seq<Actor>, a: Actor)
    ensures Run(w, actors + [a]) == Act(w, Run(w, actors), a)
  {
    assert (actors + [a])[..|actors|] == actors;
  }

  lemma Goes(w: Workload, actors: seq<Actor>, pc: Pc)
    requires Decide(w, Run(w, actors)) == Goto(pc)
    ensures Run(w, actors + [Loop]) == Run(w, actors).(pc := pc)
  {
    RunOne(w, actors, Loop);
  }

  lemma TwoWorkers(f: string, x: string, a: Worker, b: Worker)
    requires f != x
    ensures |map[f := a, x := b]| == 2 && |map[f := a]| == 1
  {
    assert map[f := a, x := b].Keys == {f, x} && |map[f := a, x := b].Keys| == |map[f := a, x := b]|;
    assert map[f := a].Keys == {f} && |map[f := a].Keys| == |map[f := a]|;
  }

  lemma NothingBlocks(t: Dag.Task, s: State)
    requires t.deps == []
    ensures DependenciesTerminal(s, t) && !BlockedByFailure(t, DependencyOutcomes(s, t))
    ensures DependencyOutcomes(s, t) == []
  {
  }

  lemma StartsNext(w: Workload, actors: seq<Actor>, k: nat, progress: bool, t: Dag.Task) returns (actors': seq<Actor>)
    requires var s := Run(w, actors);
      && s.pc == Scan(k, progress) && k < |w.order| && w.order[k] == t.id && t.id in s.pending && t.id in w.graph
      && w.graph[t.id] == t && t.deps == [] && |s.workers| < w.slots && t.agent !in s.busy
    ensures var s, s' := Run(w, actors), Run(w, actors');
      && s'.pc == Scan(k + 1, true) && s'.pending == s.pending - {t.id} && s'.busy == s.busy + {t.agent}
      && s'.workers == s.workers[t.id := Worker(w.body(t, []), 0, 0)]
      && s'.terminal == s.terminal && s'.queue == s.queue
  {
    var begun := actors + [Loop];
    RunOne(w, actors, Loop);
    Begins(w, Run(w, actors), k, progress, t);
    RunOne(w, begun, Loop);
    StartFinishes(w, Run(w, begun), k + 1, t);
    actors' := begun + [Loop];
  }

  lemma Begins(w: Workload, s: State, k: nat, progress: bool, t: Dag.Task)
    requires s.pc == Scan(k, progress) && k < |w.order| && w.order[k] == t.id && t.id in s.pending && t.id in w.graph
    requires w.graph[t.id] == t && t.deps == [] && |s.workers| < w.slots && t.agent !in s.busy
    ensures var s' := LoopStep(w, s);
      && s'.pc == Starting(t, k + 1) && s'.pending == s.pending - {t.id} && s'.busy == s.busy + {t.agent}
      && s'.workers == s.workers && s'.terminal == s.terminal && s'.queue == s.queue
  {
    NothingBlocks(t, s);
  }

  lemma StartFinishes(w: Workload, s: State, next: nat, t: Dag.Task)
    requires s.pc == Starting(t, next) && t.deps == []
    ensures var s' := LoopStep(w, s);
      && s'.pc == Scan(next, true) && s'.pending == s.pending && s'.busy == s.busy
      && s'.workers == s.workers[t.id := Worker(w.body(t, []), 0, 0)]
      && s'.terminal == s.terminal && s'.queue == s.queue
  {
    NothingBlocks(t, s);
  }

  /** A scan past tasks that are at work or held. */
  lemma ScansPast(w: Workload, actors: seq<Actor>, k: nat, progress: bool) returns (actors': seq<Actor>)
    requires var s := Run(w, actors);
      && s.pc == Scan(k, progress) && k < |w.order| && w.order[k] in w.graph
      && (w.order[k] !in s.pending || !DependenciesTerminal(s, w.graph[w.order[k]]))
    ensures Run(w, actors') == Run(w, actors).(pc := Scan(k + 1, progress))
  {
    Goes(w, actors, Scan(k + 1, progress));
    actors' := actors + [Loop];
  }

  lemma ScansAll(w: Workload, f: Dag.Task, x: Dag.Task, b: Dag.Task, actors: seq<Actor>, i: nat, j: nat)
    returns (actors': seq<Actor>)
    requires Trio(w, f, x, b) && Both(w, f, x, b, Run(w, actors), i, j) && Run(w, actors).pc == Scan(0, false)
    ensures Both(w, f, x, b, Run(w, actors'), i, j) && Run(w, actors').pc.Wait?
  {
    actors' := ScansPast(w, actors, 0, false);
    actors' := ScansPast(w, actors', 1, false);
    assert b.deps[0] == f.id && !DependenciesTerminal(Run(w, actors'), b);
    actors' := ScansPast(w, actors', 2, false);
    Goes(w, actors', Wait);
    actors' := actors' + [Loop];
  }

  lemma BothStart(w: Workload, f: Dag.Task, x: Dag.Task, b: Dag.Task) returns (actors: seq<Actor>)
    requires Trio(w, f, x, b)
    ensures Both(w, f, x, b, Run(w, actors), 0, 0) && Run(w, actors).pc.Wait?
  {
    actors := BothStarted(w, f, x, b);
    assert b.deps[0] == f.id && !DependenciesTerminal(Run(w, actors), b);
    actors := ScansPast(w, actors, 2, true);
    Goes(w, actors, Scan(0, false));
    actors := ScansAll(w, f, x, b, actors + [Loop], 0, 0);
  }

  lemma BothStarted(w: Workload, f: Dag.Task, x: Dag.Task, b: Dag.Task) returns (actors: seq<Actor>)
    requires Trio(w, f, x, b)
    ensures Both(w, f, x, b, Run(w, actors), 0, 0) && Run(w, actors).pc == Scan(2, true)
  {
    assert w.graph.Keys == {f.id, x.id, b.id};
    Goes(w, [], Scan(0, false));
    actors := StartsNext(w, [] + [Loop], 0, false, f);
    TwoWorkers(f.id, x.id, Worker(w.body(f, []), 0, 0), Worker(w.body(x, []), 0, 0));
    actors := StartsNext(w, actors, 1, true, x);
  }

  ghost predicate HasMore(w: Workload, s: State, id: string) {
    && s.pc.Wait? && s.queue == [] && id in s.workers && id in w.graph && w.graph[id].id == id
    && s.workers[id].sent == s.workers[id].taken < |s.workers[id].trace.steps|
  }

  ghost predicate OneLater(s: State, s': State, id: string) {
    && s'.pc.Top? && s'.queue == [] && s'.pending == s.pending && s'.busy == s.busy && s'.terminal == s.terminal
    && id in s.workers
    && var y := s.workers[id]; s'.workers == s.workers[id := Worker(y.trace, y.sent + 1, y.taken + 1)]
  }

  lemma PumpsOne(w: Workload, s: State, id: string)
    requires HasMore(w, s, id)
    ensures var y, s' := s.workers[id], PumpStep(s, id);
      && s'.queue == [WorkerEvent(id, y.trace.steps[y.taken].move)] && s'.pc.Wait?
      && s'.workers == s.workers[id := Worker(y.trace, y.sent + 1, y.taken)]
      && s'.pending == s.pending && s'.busy == s.busy && s'.terminal == s.terminal
  {
  }

  lemma TakesOne(w: Workload, s: State, id: string, y: Worker, m: Move)
    requires s.pc.Wait? && s.queue == [WorkerEvent(id, m)] && id in s.workers && s.workers[id] == y
    requires id in w.graph && w.graph[id].id == id
    ensures var s' := LoopStep(w, s);
      && s'.pc.Top? && s'.queue == [] && s'.workers == s.workers[id := Worker(y.trace, y.sent, y.taken + 1)]
      && s'.pending == s.pending && s'.busy == s.busy && s'.terminal == s.terminal
  {
    assert s.workers != map[];
    assert Decide(w, s) == Deliver(w.graph[id], m);
  }

  lemma PumpAndTake(w: Workload, s: State, id: string)
    requires HasMore(w, s, id)
    ensures OneLater(s, LoopStep(w, PumpStep(s, id)), id)
  {
    var y := s.workers[id];
    PumpsOne(w, s, id);
    TakesOne(w, PumpStep(s, id), id, Worker(y.trace, y.sent + 1, y.taken), y.trace.steps[y.taken].move);
  }

  lemma RunTwo(w: Workload, actors: seq<Actor>, id: string) returns (actors': seq<Actor>)
    ensures Run(w, actors') == LoopStep(w, PumpStep(Run(w, actors), id))
  {
    RunOne(w, actors, Pump(id));
    RunOne(w, actors + [Pump(id)], Loop);
    actors' := (actors + [Pump(id)]) + [Loop];
  }

  /** A worker's next event goes through the queue. */
  lemma Delivers(w: Workload, actors: seq<Actor>, id: string) returns (actors': seq<Actor>)
    requires HasMore(w, Run(w, actors), id)
    ensures OneLater(Run(w, actors), Run(w, actors'), id)
  {
    PumpAndTake(w, Run(w, actors), id);
    actors' := RunTwo(w, actors, id);
  }

  ghost predicate HasAll(w: Workload, s: State, id: string) {
    && s.pc.Wait? && s.queue == [] && id in s.workers && id in w.graph && w.graph[id].id == id
    && s.workers[id].sent == s.workers[id].taken == |s.workers[id].trace.steps| && !s.workers[id].trace.raised
  }

  ghost predicate OneLess(s: State, s': State, id: string) {
    && s'.pc.Top? && s'.workers == s.workers - {id} && s'.pending == s.pending && s'.terminal == s.terminal + {id}
    && id in s.workers && id in s'.outcomes && s'.outcomes[id] == s.workers[id].trace.last
  }

  lemma PumpsLast(w: Workload, s: State, id: string)
    requires HasAll(w, s, id)
    ensures var y, s' := s.workers[id], PumpStep(s, id);
      && s'.queue == [WorkerFinished(id, false)] && s'.pc.Wait? && s'.outcomes == s.outcomes[id := y.trace.last]
      && s'.workers == s.workers[id := Worker(y.trace, y.sent + 1, y.taken)]
      && s'.pending == s.pending && s'.terminal == s.terminal
  {
  }

  lemma RetiresOne(w: Workload, s: State, id: string)
    requires s.pc.Wait? && s.queue == [WorkerFinished(id, false)] && id in s.workers && id in w.graph
    requires w.graph[id].id == id
    ensures var s' := LoopStep(w, s);
      && s'.pc.Top? && s'.workers == s.workers - {id} && s'.outcomes == s.outcomes
      && s'.pending == s.pending && s'.terminal == s.terminal + {id}
  {
    assert s.workers != map[];
    assert Decide(w, s) == Retire(w.graph[id], false);
  }

  lemma PumpAndRetire(w: Workload, s: State, id: string)
    requires HasAll(w, s, id)
    ensures OneLess(s, LoopStep(w, PumpStep(s, id)), id)
  {
    PumpsLast(w, s, id);
    RetiresOne(w, PumpStep(s, id), id);
    assert PumpStep(s, id).workers - {id} == s.workers - {id};
  }

  /** A worker that has delivered everything finishes. */
  lemma Finishes(w: Workload, actors: seq<Actor>, id: string) returns (actors': seq<Actor>)
    requires HasAll(w, Run(w, actors), id)
    ensures OneLess(Run(w, actors), Run(w, actors'), id)
  {
    PumpAndRetire(w, Run(w, actors), id);
    actors' := RunTwo(w, actors, id);
  }

  lemma TwoUpdates<K, V>(k: K, l: K, a: V, b: V, a': V, b': V)
    requires k != l
    ensures map[k := a, l := b][k := a'] == map[k := a', l := b]
    ensures map[k := a, l := b][l := b'] == map[k := a, l := b']
    ensures k in map[k := a, l := b] && l in map[k := a, l := b]
    ensures map[k := a, l := b][k] == a && map[k := a, l := b][l] == b
    ensures map[k := a, l := b] - {k} == map[l := b]
  {
  }

  lemma NextBoth(w: Workload, f: Dag.Task, x: Dag.Task, b: Dag.Task, s: State, s': State, i: nat, j: nat, ofF: bool)
    requires f.id != x.id && Both(w, f, x, b, s, i, j) && OneLater(s, s', if ofF then f.id else x.id)
    ensures Both(w, f, x, b, s', if ofF then i + 1 else i, if ofF then j else j + 1) && s'.pc.Top?
  {
    TwoUpdates(f.id, x.id, Worker(w.body(f, []), i, i), Worker(w.body(x, []), j, j),
               Worker(w.body(f, []), i + 1, i + 1), Worker(w.body(x, []), j + 1, j + 1));
  }

  lemma BothHaveMore(w: Workload, f: Dag.Task, x: Dag.Task, b: Dag.Task, s: State, i: nat, j: nat)
    requires Trio(w, f, x, b) && Both(w, f, x, b, s, i, j) && s.pc.Wait?
    ensures i < |w.body(f, []).steps| ==> HasMore(w, s, f.id)
    ensures j < |w.body(x, []).steps| ==> HasMore(w, s, x.id)
  {
    assert w.graph[f.id] == f && w.graph[x.id] == x;
  }

  /** One more event of f or x is queued and delivered. */
  lemma EventDelivered(
      w: Workload, f: Dag.Task, x: Dag.Task, b: Dag.Task, actors: seq<Actor>, i: nat, j: nat, ofF: bool)
    returns (actors': seq<Actor>)
    requires Trio(w, f, x, b) && Both(w, f, x, b, Run(w, actors), i, j) && Run(w, actors).pc.Wait?
    requires if ofF then i < |w.body(f, []).steps| else j < |w.body(x, []).steps|
    ensures Both(w, f, x, b, Run(w, actors'), if ofF then i + 1 else i, if ofF then j else j + 1)
    ensures Run(w, actors').pc.Top?
  {
    BothHaveMore(w, f, x, b, Run(w, actors), i, j);
    actors' := Delivers(w, actors, if ofF then f.id else x.id);
    NextBoth(w, f, x, b, Run(w, actors), Run(w, actors'), i, j, ofF);
  }

  /** And a scan follows. */
  lemma OneMoreEvent(
      w: Workload, f: Dag.Task, x: Dag.Task, b: Dag.Task, actors: seq<Actor>, i: nat, j: nat, ofF: bool)
    returns (actors': seq<Actor>)
    requires Trio(w, f, x, b) && Both(w, f, x, b, Run(w, actors), i, j) && Run(w, actors).pc.Wait?
    requires if ofF then i < |w.body(f, []).steps| else j < |w.body(x, []).steps|
    ensures Both(w, f, x, b, Run(w, actors'), if ofF then i + 1 else i, if ofF then j else j + 1)
    ensures Run(w, actors').pc.Wait?
  {
    var delivered := EventDelivered(w, f, x, b, actors, i, j, ofF);
    Goes(w, delivered, Scan(0, false));
    actors' := ScansAll(w, f, x, b, delivered + [Loop], if ofF then i + 1 else i, if ofF then j else j + 1);
  }

  /** f has failed and x is still at work. */
  ghost predicate Alone(w: Workload, f: Dag.Task, x: Dag.Task, b: Dag.Task, s: State, j: nat) {
    && s.pending == {b.id} && s.terminal == {f.id} && f.id in s.outcomes && s.outcomes[f.id] == w.body(f, []).last
    && s.workers == map[x.id := Worker(w.body(x, []), j, j)]
  }

  lemma BothHaveAll(w: Workload, f: Dag.Task, x: Dag.Task, b: Dag.Task, s: State, j: nat)
    requires Trio(w, f, x, b) && Both(w, f, x, b, s, |w.body(f, []).steps|, j) && s.pc.Wait? && !w.body(f, []).raised
    ensures HasAll(w, s, f.id)
  {
    assert w.graph[f.id] == f;
  }

  lemma ThenAlone(w: Workload, f: Dag.Task, x: Dag.Task, b: Dag.Task, s: State, s': State, j: nat)
    requires f.id != x.id && Both(w, f, x, b, s, |w.body(f, []).steps|, j) && OneLess(s, s', f.id)
    ensures Alone(w, f, x, b, s', j) && s'.pc.Top?
  {
    var a, y := Worker(w.body(f, []), |w.body(f, []).steps|, |w.body(f, []).steps|), Worker(w.body(x, []), j, j);
    TwoUpdates(f.id, x.id, a, y, a, y);
  }

  lemma FirstFails(w: Workload, f: Dag.Task, x: Dag.Task, b: Dag.Task, actors: seq<Actor>, j: nat)
    returns (actors': seq<Actor>)
    requires Trio(w, f, x, b) && Both(w, f, x, b, Run(w, actors), |w.body(f, []).steps|, j) && Run(w, actors).pc.Wait?
    requires !w.body(f, []).raised
    ensures Alone(w, f, x, b, Run(w, actors'), j) && Run(w, actors').pc == Scan(2, false)
  {
    BothHaveAll(w, f, x, b, Run(w, actors), j);
    actors' := Finishes(w, actors, f.id);
    ThenAlone(w, f, x, b, Run(w, actors), Run(w, actors'), j);
    Goes(w, actors', Scan(0, false));
    actors' := ScansPast(w, actors' + [Loop], 0, false);
    actors' := ScansPast(w, actors', 1, false);
  }

  /** Then b is skipped, and that is the last event of the agent it shares with x. */
  lemma SkipComes(w: Workload, f: Dag.Task, x: Dag.Task, b: Dag.Task, actors: seq<Actor>, j: nat)
    returns (actors': seq<Actor>)
    requires Trio(w, f, x, b) && Alone(w, f, x, b, Run(w, actors), j) && Run(w, actors).pc == Scan(2, false)
    requires w.body(f, []).last.status.Failed?
    ensures var s := Run(w, actors');
      && x.id in s.workers && s.workers[x.id] == Worker(w.body(x, []), j, j) && x.id !in s.pending
      && LastIsSkip(LastFor(s.emitted, x.agent))
  {
    var s := Run(w, actors);
    assert DependencyOutcomes(s, b) == [w.body(f, []).last];
    BlockedIff(b, DependencyOutcomes(s, b));
    assert Decide(w, s) == SkipTask(b);
    RunOne(w, actors, Loop);
    actors' := actors + [Loop];
    LastOfOneMore(s.emitted, b, Skip(SkipReason(b, DependencyOutcomes(s, b))), x.agent, b.id);
  }

  /** All events of f are delivered, and those of x up to the j-th. */
  lemma PlayedUpTo(w: Workload, f: Dag.Task, x: Dag.Task, b: Dag.Task, j: nat) returns (actors: seq<Actor>)
    requires Trio(w, f, x, b) && j <= |w.body(x, []).steps|
    ensures Both(w, f, x, b, Run(w, actors), |w.body(f, []).steps|, j) && Run(w, actors).pc.Wait?
  {
    actors := BothStart(w, f, x, b);
    for k := 0 to j
      invariant Both(w, f, x, b, Run(w, actors), 0, k) && Run(w, actors).pc.Wait?
    {
      actors := OneMoreEvent(w, f, x, b, actors, 0, k, false);
    }
    for k := 0 to |w.body(f, []).steps|
      invariant Both(w, f, x, b, Run(w, actors), k, j) && Run(w, actors).pc.Wait?
    {
      actors := OneMoreEvent(w, f, x, b, actors, k, j, true);
    }
  }

  /** Whenever f fails and the j-th event of x is the start of a tool call, some interleaving hides that wait. */
  lemma SomeRunHides(w: Workload, f: Dag.Task, x: Dag.Task, b: Dag.Task, j: nat) returns (actors: seq<Actor>)
    requires Trio(w, f, x, b) && !w.body(f, []).raised && w.body(f, []).last.status.Failed?
    requires j <= |w.body(x, []).steps|
    ensures var s := Run(w, actors);
      && x.id in s.workers && s.workers[x.id] == Worker(w.body(x, []), j, j) && x.id !in s.pending
      && LastIsSkip(LastFor(s.emitted, x.agent))
  {
    actors := PlayedUpTo(w, f, x, b, j);
    actors := FirstFails(w, f, x, b, actors, j);
    actors := SkipComes(w, f, x, b, actors, j);
  }

  // ---------- A workflow ----------

  function First(): Dag.Task {
    Dag.Task("f", "p", [], true, false, [], 1, 0, 1, 0)
  }

  function Second(): Dag.Task {
    Dag.Task("x", "q", [], true, false, ["lookup"], 1, 1, 1, 0)
  }

  function Third(): Dag.Task {
    Dag.Task("b", "q", ["f"], true, false, [], 1, 0, 1, 0)
  }

  function Lookup(): TurnLoop.Proposal {
    TurnLoop.Proposal("lookup", Some([]), None, Some([]), TurnLoop.Met)
  }

  /** The model breaks off on f, and on x asks for one tool call. */
  function Scripts(): (string, seq<Outcome>) -> TurnLoop.Script {
    (id: string, deps: seq<Outcome>) => TurnLoop.Script(
      (turn: nat) =>
        if id == "x" then TurnLoop.ToolCallsAction("", [Lookup()])
        else TurnLoop.InvalidResult("no answer"),
      (turn: nat, call: nat) => TurnLoop.ExecutionError("no tool"))
  }

  function HidingWorkload(): Workload {
    Workload(map["f" := First(), "x" := Second(), "b" := Third()], ["f", "x", "b"], 2,
             Provenance.FixedDagBody(Provenance.NoEvidence(), Scripts()))
  }

  function HidingTasks(): seq<Dag.Task> {
    [First(), Second(), Third()]
  }

  lemma TrioIsValid(w: Workload, f: Dag.Task, x: Dag.Task, b: Dag.Task)
    requires Trio(w, f, x, b)
    ensures Valid(w)
  {
    assert w.order[..1] == [f.id] && w.order[..2] == [f.id, x.id];
    assert Dag.FollowsDependencies(w.graph, w.order, 0) && Dag.FollowsDependencies(w.graph, w.order, 1);
    assert Dag.FollowsDependencies(w.graph, w.order, 2);
    assert Elements(w.order) == {f.id, x.id, b.id} == w.graph.Keys;
  }

  lemma ThreeNames(a: string, b: string, c: string)
    requires a != b && a != c && b != c
    ensures Unique([a, b, c]) && Elements([a, b, c]) == {a, b, c}
    ensures Unique([a]) && Elements([a]) == {a}
  {
  }

  lemma TrioIsWellFormed(w: Workload, f: Dag.Task, x: Dag.Task, b: Dag.Task)
    requires Trio(w, f, x, b)
    ensures Dag.WellFormed([f, x, b]) && Dag.Names([f, x, b]) == [f.id, x.id, b.id]
  {
    var ts := [f, x, b];
    assert Dag.Names(ts) == [f.id, x.id, b.id];
    ThreeNames(f.id, x.id, b.id);
    assert Dag.KnownDependencies(ts, []) && Dag.KnownDependencies(ts, [f.id]);
  }

  lemma TrioIsListed(w: Workload, f: Dag.Task, x: Dag.Task, b: Dag.Task)
    requires Trio(w, f, x, b)
    ensures Dag.WellFormed([f, x, b]) && Dag.TasksById([f, x, b]) == w.graph
  {
    var ts := [f, x, b];
    TrioIsWellFormed(w, f, x, b);
    ThreeNames(f.id, x.id, b.id);
    var g := Dag.TasksById(ts);
    assert g.Keys == w.graph.Keys;
    assert g[ts[0].id] == f && g[ts[1].id] == x && g[ts[2].id] == b;
  }

  lemma HidingIsTrio()
    ensures Trio(HidingWorkload(), First(), Second(), Third())
  {
  }

  lemma HidingIsDeclared()
    ensures Declares(HidingWorkload(), HidingTasks()) && Trio(HidingWorkload(), First(), Second(), Third())
  {
    HidingIsTrio();
    TrioIsDeclared(HidingWorkload(), First(), Second(), Third());
  }

  lemma TrioIsDeclared(w: Workload, f: Dag.Task, x: Dag.Task, b: Dag.Task)
    requires Trio(w, f, x, b) && "" !in {f.id, x.id, b.id, f.agent, x.agent}
    ensures Declares(w, [f, x, b])
  {
    TrioIsValid(w, f, x, b);
    TrioIsListed(w, f, x, b);
  }

  lemma FirstTaskFails()
    ensures var trace := HidingWorkload().body(First(), []); !trace.raised && trace.last.status.Failed?
  {
    var t, script := First(), Scripts()("f", []);
    var c := TurnLoop.ContextOf(t, [], []);
    var s := TurnLoop.PlayTurn(t, c, script, TurnLoop.Started(c), 1);
    assert TurnLoop.PlayTurns(t, c, script, s, 2) == s;
  }

  lemma SecondTaskCalls()
    ensures var steps := HidingWorkload().body(Second(), []).steps; |steps| >= 3 && steps[2].move.ToolStart?
  {
    var t, script := Second(), Scripts()("x", []);
    var c := TurnLoop.ContextOf(t, [], []);
    var a := script.reply(1);
    var s := TurnLoop.PlayTurn(t, c, script, TurnLoop.Started(c), 1);
    assert TurnLoop.PlayTurns(t, c, script, s, 2) == s;
    LookupIsFree(t, c);
  }

  lemma LookupIsFree(t: Dag.Task, c: TurnLoop.Context)
    requires t.tools == ["lookup"]
    ensures TurnLoop.Preflight(t, c.allowed, [Lookup()]).None?
  {
    assert TurnLoop.CheckCall(t, c.allowed, Lookup()).None?;
    forall p | p in [Lookup()] ensures TurnLoop.CheckCall(t, c.allowed, p).None? { }
  }

  lemma CallingIsWaiting(w: Workload, s: State, rs: RunState, id: string, j: nat)
    requires Follows(w, s, rs) && id in w.graph && id in s.workers && id !in s.pending
    requires s.workers[id] == Worker(w.body(w.graph[id], []), j, j) && 0 < j <= |w.body(w.graph[id], []).steps|
    requires w.body(w.graph[id], []).steps[j - 1].move.ToolStart?
    ensures rs.tasks[id].status.WaitingTool?
  {
    assert Mirrors(w, s, rs.tasks, id);
    var k := j - 1;
    assert ReplaySteps(w.graph[id], s.workers[id].trace.steps, k).Ok?;
  }

  /** In any such workflow. */
  lemma TrioHides(w: Workload, f: Dag.Task, x: Dag.Task, b: Dag.Task, j: nat, id: string, version: string,
                  ts: seq<Dag.Task>, rs: RunState)
    returns (actors: seq<Actor>, rs': RunState)
    requires Runs(w, ts) && ReadyToPlan(rs) && id != "" && version != "" && Trio(w, f, x, b)
    requires !w.body(f, []).raised && w.body(f, []).last.status.Failed?
    requires 0 < j <= |w.body(x, []).steps| && w.body(x, []).steps[j - 1].move.ToolStart?
    ensures PublishAll(rs, Header(id, version, ts) + Run(w, actors).emitted) == Ok(rs')
    ensures x.id in rs'.tasks && rs'.tasks[x.id].agent == x.agent && rs'.tasks[x.id].status.WaitingTool?
    ensures x.agent in rs'.agents && !rs'.agents[x.agent].status.AgentWaitingTool?
  {
    assert w.graph[x.id] == x;
    actors := SomeRunHides(w, f, x, b, j);
    rs' := WaitsAreShownIff(w, id, version, ts, rs, actors);
    CallingIsWaiting(w, Run(w, actors), rs', x.id, j);
    assert Mirrors(w, Run(w, actors), rs'.tasks, x.id);
  }

  /** It does happen: a stream of the turn loop after which x waits for a tool and its agent does not show it. */
  lemma WaitIsHidden(id: string, version: string, rs: RunState)
    returns (w: Workload, actors: seq<Actor>, rs': RunState)
    requires ReadyToPlan(rs) && id != "" && version != ""
    ensures w.body == Provenance.FixedDagBody(Provenance.NoEvidence(), Scripts()) && Runs(w, HidingTasks())
    ensures PublishAll(rs, Header(id, version, HidingTasks()) + Run(w, actors).emitted) == Ok(rs')
    ensures "x" in rs'.tasks && rs'.tasks["x"].agent == "q" && rs'.tasks["x"].status.WaitingTool?
    ensures "q" in rs'.agents && !rs'.agents["q"].status.AgentWaitingTool?
  {
    w := HidingWorkload();
    HidingIsDeclared();
    Provenance.FixedDagBodyIsSound(w, Provenance.NoEvidence(), Scripts());
    FirstTaskFails();
    SecondTaskCalls();
    actors, rs' := TrioHides(w, First(), Second(), Third(), 3, id, version, HidingTasks(), rs);
  }
}
