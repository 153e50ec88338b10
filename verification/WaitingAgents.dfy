/** While a task waits for a tool, does its agent show it? In the serial loop always; in the concurrent one exactly
    until another task of the agent is skipped. */
module WaitingAgents {
  import opened Common
  import opened Events
  import opened Reducer
  import opened Workload
  import opened Simulation
  import opened Scheduler
  import opened SchedulerInvariant
  import opened Agents
  import opened FixedDagStream
  import Dag

  // ---------- Who spoke last ----------

  /** The task of an agent that had the last event other than a skip. */
  function LastSpeaker(drafts: seq<Draft>, agent: string): Option<string> {
    if drafts == [] then None
    else
      var d := drafts[|drafts| - 1];
      if d.payload.OnTask? && d.agent == Some(agent) && !d.payload.move.Skip? then Some(d.payload.taskId)
      else LastSpeaker(drafts[..|drafts| - 1], agent)
  }

  lemma SpeakerOfOneMore(drafts: seq<Draft>, t: Dag.Task, m: Move, agent: string)
    ensures LastSpeaker(drafts + [TaskDraft(t, m)], agent) ==
      if agent == t.agent && !m.Skip? then Some(t.id) else LastSpeaker(drafts, agent)
  {
    assert (drafts + [TaskDraft(t, m)])[..|drafts|] == drafts;
  }

  /** The task has its agent, or had it when the run broke off. */
  predicate Holds(s: State, id: string) {
    Owns(s, id) || (s.pc.Aborted? && s.pc.t.id == id)
  }

  ghost predicate Speaks(w: Workload, s: State, id: string) {
    Holds(s, id) && id in w.graph ==> LastSpeaker(s.emitted, w.graph[id].agent) == Some(id)
  }

  ghost predicate HoldersSpeak(w: Workload, s: State) {
    forall id {:trigger Speaks(w, s, id)} :: Speaks(w, s, id)
  }

  lemma SilentStep(w: Workload, s: State, s': State)
    requires HoldersSpeak(w, s) && s'.emitted == s.emitted && forall id :: Holds(s', id) ==> Holds(s, id)
    ensures HoldersSpeak(w, s')
  {
    forall id ensures Speaks(w, s', id) { assert Speaks(w, s, id); }
  }

  lemma SpokenStep(w: Workload, s: State, s': State, t: Dag.Task, m: Move)
    requires HoldersSpeak(w, s) && s'.emitted == s.emitted + [TaskDraft(t, m)] && t.id in w.graph && w.graph[t.id] == t
    requires forall id :: Holds(s', id) ==> Holds(s, id) || id == t.id
    requires !m.Skip? ==> forall id :: Holds(s', id) && id in w.graph && w.graph[id].agent == t.agent ==> id == t.id
    requires m.Skip? ==> !Holds(s', t.id) || Holds(s, t.id)
    ensures HoldersSpeak(w, s')
  {
    forall id ensures Speaks(w, s', id) {
      assert Speaks(w, s, id);
      if Holds(s', id) && id in w.graph { SpeakerOfOneMore(s.emitted, t, m, w.graph[id].agent); }
    }
  }

  predicate Emits(d: Decision) {
    d.SkipTask? || d.BeginStart? || d.Deliver?
  }

  /** What is known of a decision, without saying how it was made. */
  predicate Shaped(s: State, d: Decision) {
    && (d.Retire? ==> d.t.id in s.workers)
    && (d.FinishStart? ==> s.pc == Starting(d.t, d.next))
    && (d.Goto? ==> !d.pc.Starting? && !d.pc.Aborted?)
  }

  lemma DecisionsAreShaped(w: Workload, s: State)
    requires Dag.Closed(w.graph)
    ensures Shaped(s, Decide(w, s))
  {
  }

  lemma WhoHolds(w: Workload, s: State, d: Decision, id: string)
    requires Shaped(s, d) && Holds(Perform(w, s, d), id)
    ensures Holds(s, id) || (d.BeginStart? && id == d.t.id)
  {
  }

  lemma DecisionKeepsSpeakers(w: Workload, s: State, m: Verdicts)
    requires Valid(w) && Invariant(w, s, m) && HoldersSpeak(w, s)
    ensures HoldersSpeak(w, LoopStep(w, s))
  {
    var d := Decide(w, s);
    DecisionsAreShaped(w, s);
    forall id | Holds(LoopStep(w, s), id) ensures Holds(s, id) || (d.BeginStart? && id == d.t.id) {
      WhoHolds(w, s, d, id);
    }
    if Emits(d) {
      EmissionKeepsSpeakers(w, s, d);
    } else {
      SilenceKeepsQuiet(w, s, d);
      SilentStep(w, s, LoopStep(w, s));
    }
  }

  lemma SilenceKeepsQuiet(w: Workload, s: State, d: Decision)
    requires !Emits(d)
    ensures Perform(w, s, d).emitted == s.emitted
  {
  }

  lemma EmissionKeepsSpeakers(w: Workload, s: State, d: Decision)
    requires Dag.Closed(w.graph) && AgentsExclusive(w, s) && HoldersSpeak(w, s) && d == Decide(w, s) && Emits(d)
    requires forall id :: Holds(LoopStep(w, s), id) ==> Holds(s, id) || (d.BeginStart? && id == d.t.id)
    ensures HoldersSpeak(w, LoopStep(w, s))
  {
    DecidedTask(w, s);
    EmittedDraft(w, s, d);
    if !EmittedMove(s, d).Skip? {
      forall id | Holds(LoopStep(w, s), id) && id in w.graph && w.graph[id].agent == d.t.agent ensures id == d.t.id {
        HoldsAlone(w, s, id);
      }
    }
    SpokenStep(w, s, LoopStep(w, s), d.t, EmittedMove(s, d));
  }

  /** Whoever starts or goes on has its agent to itself. */
  lemma HoldsAlone(w: Workload, s: State, id: string)
    requires Dag.Closed(w.graph) && AgentsExclusive(w, s) && id in w.graph && Holds(LoopStep(w, s), id)
    requires var d := Decide(w, s); (d.BeginStart? || d.Deliver?) && w.graph[id].agent == d.t.agent
    ensures id == Decide(w, s).t.id
  {
    var d := Decide(w, s);
    DecidedTask(w, s);
    if d.Deliver? { assert NoClash(w, s, id, d.t.id); }
  }

  lemma {:induction false} HoldersAlwaysSpeak(w: Workload, actors: seq<Actor>)
    requires Valid(w)
    ensures HoldersSpeak(w, Run(w, actors))
  {
    if actors != [] {
      var before, a := actors[..|actors| - 1], actors[|actors| - 1];
      HoldersAlwaysSpeak(w, before);
      var m := EvaluationExists(w);
      InvariantAlways(w, m, before);
      if a.Loop? {
        DecisionKeepsSpeakers(w, Run(w, before), m);
      } else {
        SilentStep(w, Run(w, before), PumpStep(Run(w, before), a.id));
      }
    }
  }

  // ---------- The last events together ----------

  /** When an agent's last event is no skip, it is the last event of the task that spoke last. */
  lemma {:induction false} SpeakerHasLastWord(w: Workload, drafts: seq<Draft>, id: string)
    requires TaskEvents(w, drafts) && id in w.graph && LastSpeaker(drafts, w.graph[id].agent) == Some(id)
    requires !LastIsSkip(LastFor(drafts, w.graph[id].agent))
    ensures LastFor(drafts, w.graph[id].agent) == LastOn(drafts, id)
  {
    var n := |drafts| - 1;
    assert TaskEvent(w, drafts[n]);
    if drafts[n].agent != Some(w.graph[id].agent) { SpeakerHasLastWord(w, drafts[..n], id); }
  }

  /** An agent's last event is the last one of some task of its own. */
  lemma {:induction false} LastWordIsATasks(w: Workload, drafts: seq<Draft>, agent: string) returns (id: string)
    requires TaskEvents(w, drafts) && LastFor(drafts, agent).Some?
    ensures id in w.graph && w.graph[id].agent == agent && LastOn(drafts, id) == LastFor(drafts, agent)
  {
    var n := |drafts| - 1;
    assert TaskEvent(w, drafts[n]);
    if drafts[n].agent == Some(agent) {
      id := drafts[n].payload.taskId;
    } else {
      id := LastWordIsATasks(w, drafts[..n], agent);
    }
  }

  // ---------- The concurrent loop ----------

  ghost predicate HasWaitingTask(w: Workload, rs: RunState, agent: string) {
    exists id :: id in w.graph && w.graph[id].agent == agent && id in rs.tasks && rs.tasks[id].status.WaitingTool?
  }

  lemma WaitingTaskHolds(w: Workload, s: State, rs: RunState, id: string)
    requires Follows(w, s, rs) && id in w.graph && id in rs.tasks && rs.tasks[id].status.WaitingTool?
    ensures Holds(s, id)
  {
    assert Mirrors(w, s, rs.tasks, id);
  }

  lemma WaitIsShownIff(w: Workload, s: State, rs: RunState, agent: string)
    requires Follows(w, s, rs) && HoldersSpeak(w, s) && TaskEvents(w, s.emitted) && Tracks(w, s.emitted, rs)
    requires agent in rs.agents
    ensures rs.agents[agent].status.AgentWaitingTool? <==>
      HasWaitingTask(w, rs, agent) && !LastIsSkip(LastFor(s.emitted, agent))
  {
    var last := LastFor(s.emitted, agent);
    assert Tracked(w.order, s.emitted, rs, agent);
    if rs.agents[agent].status.AgentWaitingTool? {
      var id := LastWordIsATasks(w, s.emitted, agent);
      assert WaitsAsTold(s.emitted, rs, id);
    }
    if HasWaitingTask(w, rs, agent) && !LastIsSkip(last) {
      var id :| id in w.graph && w.graph[id].agent == agent && id in rs.tasks && rs.tasks[id].status.WaitingTool?;
      WaitingTaskHolds(w, s, rs, id);
      assert Speaks(w, s, id) && WaitsAsTold(s.emitted, rs, id);
      SpeakerHasLastWord(w, s.emitted, id);
    }
  }

  /** In every state of every interleaving an agent shows that it waits for a tool exactly when one of its tasks does
      and the last event of its tasks is not a skip. */
  lemma WaitsAreShownIff(
      w: Workload, id: string, version: string, ts: seq<Dag.Task>, rs: RunState, actors: seq<Actor>)
    returns (rs': RunState)
    requires Runs(w, ts) && ReadyToPlan(rs) && id != "" && version != ""
    ensures PublishAll(rs, Header(id, version, ts) + Run(w, actors).emitted) == Ok(rs')
    ensures Follows(w, Run(w, actors), rs')
    ensures forall a :: a in rs'.agents ==>
      (rs'.agents[a].status.AgentWaitingTool? <==>
       HasWaitingTask(w, rs', a) && !LastIsSkip(LastFor(Run(w, actors).emitted, a)))
  {
    rs' := ConcurrentStreamAccepted(w, id, version, ts, rs, actors);
    HoldersAlwaysSpeak(w, actors);
    EmissionsAreTaskEvents(w, actors);
    forall a | a in rs'.agents
      ensures rs'.agents[a].status.AgentWaitingTool? <==>
        HasWaitingTask(w, rs', a) && !LastIsSkip(LastFor(Run(w, actors).emitted, a))
    {
      WaitIsShownIff(w, Run(w, actors), rs', a);
    }
  }

  /** No other task of the agent can be skipped. */
  predicate NoOtherSkips(w: Workload, id: string)
    requires id in w.graph
  {
    forall y :: y in w.graph && y != id && w.graph[y].agent == w.graph[id].agent ==>
      w.graph[y].allowFailed || w.graph[y].deps == []
  }

  /** A skipped task is one that can be. */
  lemma SkippedCanBe(w: Workload, s: State, m: Verdicts, rs: RunState, y: string)
    requires Valid(w) && LawfulBody(w) && Solves(w, m) && Invariant(w, s, m) && Follows(w, s, rs)
    requires y in w.graph && rs.tasks[y].status.Skipped? && !(s.pc.Aborted? && s.pc.t.id == y)
    ensures !w.graph[y].allowFailed && w.graph[y].deps != []
  {
    assert Mirrors(w, s, rs.tasks, y) && PlacedOnce(w, s, y);
    if y in s.workers {
      assert WorkerSound(w, s, m, y);
      assert LawfulAt(w, y, EndedOutcomes(m, w.graph[y].deps));
      NeverQueuedAgain(w.graph[y], s.workers[y].trace.steps, s.workers[y].taken);
      assert false;
    } else {
      assert TerminalAgrees(s, m, y);
      SkippedIff(w, m, y);
    }
  }

  /** What a caller can see to: then the wait is shown as long as it lasts. */
  lemma WaitsAreShown(
      w: Workload, id: string, version: string, ts: seq<Dag.Task>, rs: RunState, actors: seq<Actor>, x: string)
    returns (rs': RunState)
    requires Runs(w, ts) && ReadyToPlan(rs) && id != "" && version != "" && x in w.graph && NoOtherSkips(w, x)
    ensures PublishAll(rs, Header(id, version, ts) + Run(w, actors).emitted) == Ok(rs')
    ensures x in rs'.tasks && w.graph[x].agent in rs'.agents
    ensures rs'.tasks[x].status.WaitingTool? ==> rs'.agents[w.graph[x].agent].status.AgentWaitingTool?
  {
    rs' := ConcurrentStreamAccepted(w, id, version, ts, rs, actors);
    HoldersAlwaysSpeak(w, actors);
    EmissionsAreTaskEvents(w, actors);
    var s, a := Run(w, actors), w.graph[x].agent;
    WaitIsShownIff(w, s, rs', a);
    if rs'.tasks[x].status.WaitingTool? {
      var m := EvaluationExists(w);
      InvariantAlways(w, m, actors);
      NoSkipMeanwhile(w, s, m, rs', x);
    }
  }

  lemma NoSkipMeanwhile(w: Workload, s: State, m: Verdicts, rs: RunState, x: string)
    requires Valid(w) && LawfulBody(w) && Solves(w, m) && Invariant(w, s, m) && Follows(w, s, rs) && HoldersSpeak(w, s)
    requires TaskEvents(w, s.emitted) && Tracks(w, s.emitted, rs)
    requires x in w.graph && NoOtherSkips(w, x) && x in rs.tasks && rs.tasks[x].status.WaitingTool?
    ensures !LastIsSkip(LastFor(s.emitted, w.graph[x].agent))
  {
    var a := w.graph[x].agent;
    if LastIsSkip(LastFor(s.emitted, a)) {
      var y := LastWordIsATasks(w, s.emitted, a);
      assert WaitsAsTold(s.emitted, rs, y);
      WaitingTaskHolds(w, s, rs, x);
      assert Speaks(w, s, x) && Speaks(w, s, y);
      SkippedCanBe(w, s, m, rs, y);
      assert false;
    }
  }

  // ---------- The serial loop ----------

  ghost predicate AllOn(drafts: seq<Draft>, t: Dag.Task) {
    forall i :: 0 <= i < |drafts| ==> drafts[i].payload.OnTask? && drafts[i] == TaskDraft(t, drafts[i].payload.move)
  }

  lemma {:induction false} StepsAreOn(t: Dag.Task, steps: seq<Step>, n: nat)
    requires n <= |steps|
    ensures AllOn(StepDrafts(t, steps, n), t)
  {
    if n > 0 { StepsAreOn(t, steps, n - 1); }
  }

  lemma BlockIsOn(w: Workload, t: Dag.Task, deps: seq<Outcome>)
    requires |deps| == |t.deps|
    ensures AllOn(TaskBlock(w, t, deps), t)
  {
    StepsAreOn(t, w.body(t, deps).steps, |w.body(t, deps).steps|);
  }

  lemma {:induction false} OthersHeardBefore(before: seq<Draft>, block: seq<Draft>, t: Dag.Task, x: string)
    requires AllOn(block, t) && x != t.id
    ensures LastOn(before + block, x) == LastOn(before, x)
  {
    if block == [] {
      assert before + block == before;
    } else {
      FrontOfSum(before, block);
      OthersHeardBefore(before, block[..|block| - 1], t, x);
    }
  }

  lemma LastOfBlock(before: seq<Draft>, block: seq<Draft>, t: Dag.Task)
    requires AllOn(block, t) && block != []
    ensures LastOn(before + block, t.id) == LastFor(before + block, t.agent)
  {
    FrontOfSum(before, block);
  }

  /** Between two tasks of the serial loop nobody waits. */
  lemma NobodyWaits(w: Workload, m: Verdicts, done: set<string>, rs: RunState, x: string)
    requires SerialFollows(w, m, done, rs) && x in w.graph
    ensures x in rs.tasks && !rs.tasks[x].status.WaitingTool?
  {
    assert SerialMirrors(w, m, done, rs.tasks, x);
  }

  lemma PrefixAccepted(rs: RunState, early: seq<Draft>, block: seq<Draft>, j: nat)
    requires PublishAll(rs, early + block).Ok? && j <= |block|
    ensures PublishAll(rs, early + block[..j]).Ok?
  {
    assert early + block == (early + block[..j]) + block[j..];
    PublishAppend(rs, early + block[..j], block[j..]);
  }

  lemma PartsAreTaskEvents(w: Workload, early: seq<Draft>, block: seq<Draft>, j: nat)
    requires TaskEvents(w, early) && TaskEvents(w, block) && j <= |block|
    ensures TaskEvents(w, early + block[..j])
  {
  }

  lemma PrefixIsOn(block: seq<Draft>, t: Dag.Task, j: nat)
    requires AllOn(block, t) && j <= |block|
    ensures AllOn(block[..j], t)
  {
  }

  /** In the middle of a task's events, after a point at which nobody waits, only that task can wait. */
  lemma WaitIsShown(w: Workload, early: seq<Draft>, block: seq<Draft>, t: Dag.Task, before: RunState, rs: RunState,
                    x: string)
    requires AllOn(block, t) && t.id in w.graph && w.graph[t.id] == t
    requires Tracks(w, early, before) && Tracks(w, early + block, rs)
    requires x in w.graph && before.tasks.Keys == w.graph.Keys && !before.tasks[x].status.WaitingTool?
    requires x in rs.tasks && rs.tasks[x].status.WaitingTool? && w.graph[x].agent in rs.agents
    ensures rs.agents[w.graph[x].agent].status.AgentWaitingTool?
  {
    assert WaitsAsTold(early, before, x) && WaitsAsTold(early + block, rs, x);
    if x != t.id { OthersHeardBefore(early, block, t, x); }
    assert early + [] == early;
    if block != [] { LastOfBlock(early, block, t); }
    assert Tracked(w.order, early + block, rs, t.agent);
  }

  /** The events of the n-th task of the serial loop. */
  function NthBlock(w: Workload, m: Verdicts, n: nat): seq<Draft>
    requires n < |w.order| && SerialReachAt(w, m, n)
  {
    var t := w.graph[w.order[n]];
    TaskBlock(w, t, EndedOutcomes(m, t.deps))
  }

  lemma NthBlockIsOn(w: Workload, m: Verdicts, n: nat) returns (t: Dag.Task)
    requires Valid(w) && SerialReachAt(w, m, n)
    ensures t == w.graph[w.order[n]] && t.id in w.graph && w.graph[t.id] == t
    ensures AllOn(NthBlock(w, m, n), t) && TaskEvents(w, NthBlock(w, m, n))
  {
    t := w.graph[w.order[n]];
    BlockIsOn(w, t, EndedOutcomes(m, t.deps));
    BlockIsTaskEvents(w, t, EndedOutcomes(m, t.deps));
  }

  lemma NthBlockIsOk(w: Workload, m: Verdicts, planned: RunState, n: nat)
    requires Valid(w) && LawfulBody(w) && NamesGiven(w) && Solves(w, m) && SerialFollows(w, m, {}, planned)
    requires SerialReach(w, m, n) && SerialReach(w, m, n + 1) && SerialReachAt(w, m, n)
    ensures PublishAll(planned, SerialEmission(w, m, n) + NthBlock(w, m, n)).Ok?
  {
    var k := n + 1;
    EmissionIsOk(w, m, planned, k);
    NthBlockIsNext(w, m, n);
  }

  lemma EmissionFollows(w: Workload, m: Verdicts, planned: RunState, n: nat) returns (before: RunState)
    requires Valid(w) && LawfulBody(w) && NamesGiven(w) && Solves(w, m) && SerialFollows(w, m, {}, planned)
    requires SerialReach(w, m, n) && (0 < n ==> SerialPast(w, m, n - 1))
    ensures PublishAll(planned, SerialEmission(w, m, n)) == Ok(before)
    ensures SerialFollows(w, m, FirstTasks(w.order, n), before)
  {
    before := SerialEmissionAccepted(w, m, planned, n);
  }

  lemma EmissionIsOk(w: Workload, m: Verdicts, planned: RunState, n: nat)
    requires Valid(w) && LawfulBody(w) && NamesGiven(w) && Solves(w, m) && SerialFollows(w, m, {}, planned)
    requires SerialReach(w, m, n)
    ensures PublishAll(planned, SerialEmission(w, m, n)).Ok?
  {
    var after := SerialEmissionAccepted(w, m, planned, n);
  }

  lemma NthBlockIsNext(w: Workload, m: Verdicts, n: nat)
    requires SerialReach(w, m, n) && SerialReach(w, m, n + 1) && SerialReachAt(w, m, n)
    ensures SerialEmission(w, m, n + 1) == SerialEmission(w, m, n) + NthBlock(w, m, n)
  {
  }

  /** At every point of the serial loop, here after j events of its n-th task, the agent of a task that waits for a tool
      shows it. */
  lemma SerialWaitsAreShown(
      w: Workload, m: Verdicts, id: string, version: string, ts: seq<Dag.Task>, rs: RunState, n: nat, j: nat)
    returns (rs': RunState)
    requires Runs(w, ts) && ReadyToPlan(rs) && id != "" && version != "" && Solves(w, m)
    requires SerialReach(w, m, n) && SerialReach(w, m, n + 1) && SerialReachAt(w, m, n) && j <= |NthBlock(w, m, n)|
    ensures PublishAll(rs, Header(id, version, ts) + (SerialEmission(w, m, n) + NthBlock(w, m, n)[..j])) == Ok(rs')
    ensures forall x :: x in w.graph ==> x in rs'.tasks && w.graph[x].agent in rs'.agents
    ensures forall x :: x in w.graph && rs'.tasks[x].status.WaitingTool? ==>
      rs'.agents[w.graph[x].agent].status.AgentWaitingTool?
  {
    var planned := HeaderAccepted(w, id, version, ts, rs);
    SerialBegins(w, m, planned);
    SerialReachEarlier(w, m, n + 1, n);
    var before := EmissionFollows(w, m, planned, n);
    NthBlockIsOk(w, m, planned, n);
    var t := NthBlockIsOn(w, m, n);
    SerialEmitsTaskEvents(w, m, n);
    rs' := ShownInBlock(w, planned, SerialEmission(w, m, n), NthBlock(w, m, n), j, t, before, m, n);
    PublishChain(rs, Header(id, version, ts), planned, SerialEmission(w, m, n) + NthBlock(w, m, n)[..j], rs');
  }

  lemma ShownInBlock(w: Workload, planned: RunState, early: seq<Draft>, block: seq<Draft>, j: nat, t: Dag.Task,
                     before: RunState, m: Verdicts, n: nat)
    returns (rs: RunState)
    requires Valid(w) && n <= |w.order| && SerialFollows(w, m, FirstTasks(w.order, n), before)
    requires Tracks(w, [], planned) && planned.agents.Keys == Owners(w)
    requires PublishAll(planned, early) == Ok(before) && PublishAll(planned, early + block).Ok? && j <= |block|
    requires TaskEvents(w, early) && TaskEvents(w, block) && AllOn(block, t) && t.id in w.graph && w.graph[t.id] == t
    ensures PublishAll(planned, early + block[..j]) == Ok(rs)
    ensures forall x :: x in w.graph ==> x in rs.tasks && w.graph[x].agent in rs.agents
    ensures forall x :: x in w.graph && rs.tasks[x].status.WaitingTool? ==>
      rs.agents[w.graph[x].agent].status.AgentWaitingTool?
  {
    PrefixAccepted(planned, early, block, j);
    rs := PublishAll(planned, early + block[..j]).value;
    PartsAreTaskEvents(w, early, block, j);
    PrefixIsOn(block, t, j);
    StreamsTrack(w, planned, early);
    StreamsTrack(w, planned, early + block[..j]);
    forall x | x in w.graph ensures x in rs.tasks && w.graph[x].agent in rs.agents {
      assert WaitsAsTold(early + block[..j], rs, x) && w.graph[x].agent in Owners(w);
    }
    forall x | x in w.graph && rs.tasks[x].status.WaitingTool?
      ensures rs.agents[w.graph[x].agent].status.AgentWaitingTool?
    {
      NobodyWaits(w, m, FirstTasks(w.order, n), before, x);
      WaitIsShown(w, early, block[..j], t, before, rs, x);
    }
  }
}
