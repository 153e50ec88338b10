/** Every move of the scheduler and of its workers keeps the scheduler invariant. */
module SchedulerInvariant {
  import opened Common
  import opened Events
  import opened Workload
  import opened Scheduler
  import Dag

  // ---------- What a decision guarantees ----------

  /** The conditions under which each decision is taken. */
  ghost predicate Justified(w: Workload, s: State, d: Decision) {
    match d
    case Stay => true
    case Goto(pc) =>
      && (s.pc.Top? || s.pc.Scan? || s.pc.Wait?)
      && (pc.Done? || pc.Scan? || pc.Wait? || pc.Deadlocked?)
      && (pc.Done? ==> s.pending == {} && s.workers == map[])
    case SkipTask(t) =>
      && s.pc.Scan? && t.id in s.pending && t.id in w.graph && w.graph[t.id] == t
      && DependenciesTerminal(s, t) && BlockedByFailure(t, DependencyOutcomes(s, t))
    case EndSkip(t) => s.pc == Skipping(t)
    case BeginStart(t, next) =>
      && s.pc.Scan? && s.pc.k + 1 == next && t.id in s.pending && t.id in w.graph && w.graph[t.id] == t
      && DependenciesTerminal(s, t) && !BlockedByFailure(t, DependencyOutcomes(s, t))
      && |s.workers| < w.slots && t.agent !in s.busy && next <= |w.order| && w.order[next - 1] == t.id
    case FinishStart(t, next) => s.pc == Starting(t, next)
    case Deliver(t, m) =>
      && s.pc.Wait? && s.queue != [] && s.queue[0] == WorkerEvent(t.id, m)
      && t.id in s.workers && t.id in w.graph && w.graph[t.id] == t
    case Retire(t, raised) =>
      && s.pc.Wait? && s.queue != [] && s.queue[0] == WorkerFinished(t.id, raised)
      && t.id in s.workers && t.id in w.graph && w.graph[t.id] == t
  }

  lemma DecisionsAreJustified(w: Workload, s: State)
    requires Dag.Closed(w.graph)
    ensures Justified(w, s, Decide(w, s))
  {
  }

  // ---------- The partition ----------

  lemma PerformKeepsPartition(w: Workload, s: State, d: Decision)
    requires Partitioned(w, s) && Justified(w, s, d)
    ensures Partitioned(w, Perform(w, s, d))
  {
    forall id ensures PlacedOnce(w, Perform(w, s, d), id) {
      assert PlacedOnce(w, s, id);
      PlaceAfter(w, s, d, id);
    }
  }

  lemma PlaceAfter(w: Workload, s: State, d: Decision, id: string)
    requires PlacedOnce(w, s, id) && Justified(w, s, d)
    ensures PlacedOnce(w, Perform(w, s, d), id)
  {
  }

  lemma PerformKeepsPc(w: Workload, s: State, d: Decision)
    requires PcSound(w, s) && Justified(w, s, d)
    ensures PcSound(w, Perform(w, s, d))
  {
  }

  // ---------- Agents and slots ----------

  lemma SameOwners(w: Workload, s: State, s': State)
    requires AgentsExclusive(w, s) && s'.busy == s.busy && forall x :: Owns(s', x) <==> Owns(s, x)
    ensures AgentsExclusive(w, s')
  {
    forall x, y ensures NoClash(w, s', x, y) { assert NoClash(w, s, x, y); }
    forall a | a in s'.busy ensures OwnedAgent(w, s', a) { OwnerRemains(w, s, s', a); }
  }

  lemma NewOwner(w: Workload, s: State, s': State, t: Dag.Task)
    requires AgentsExclusive(w, s) && t.id in w.graph && w.graph[t.id] == t && t.agent !in s.busy
    requires s'.busy == s.busy + {t.agent} && forall x :: Owns(s', x) <==> Owns(s, x) || x == t.id
    ensures AgentsExclusive(w, s')
  {
    forall x, y ensures NoClash(w, s', x, y) { assert NoClash(w, s, x, y); }
    forall a | a in s'.busy ensures OwnedAgent(w, s', a) {
      if a == t.agent { assert Owns(s', t.id); } else { OwnerRemains(w, s, s', a); }
    }
  }

  lemma OwnerLeaves(w: Workload, s: State, s': State, t: Dag.Task)
    requires AgentsExclusive(w, s) && t.id in w.graph && w.graph[t.id] == t && Owns(s, t.id)
    requires s'.busy == s.busy - {t.agent} && forall x :: Owns(s', x) <==> Owns(s, x) && x != t.id
    ensures AgentsExclusive(w, s')
  {
    forall x | Owns(s', x) ensures w.graph[x].agent in s'.busy { assert NoClash(w, s, x, t.id); }
    forall x, y ensures NoClash(w, s', x, y) { assert NoClash(w, s, x, y); }
    forall a | a in s'.busy ensures OwnedAgent(w, s', a) { OwnerRemains(w, s, s', a); }
  }

  lemma PerformKeepsAgents(w: Workload, s: State, d: Decision)
    requires PcSound(w, s) && AgentsExclusive(w, s) && Justified(w, s, d)
    ensures AgentsExclusive(w, Perform(w, s, d))
  {
    match d
    case BeginStart(t, next) => NewOwner(w, s, Perform(w, s, d), t);
    case Retire(t, raised) => OwnerLeaves(w, s, Perform(w, s, d), t);
    case _ => SameOwners(w, s, Perform(w, s, d));
  }

  lemma OwnerRemains(w: Workload, s: State, s': State, a: string)
    requires OwnedAgent(w, s, a)
    requires forall x :: Owns(s, x) && x in w.graph && w.graph[x].agent == a ==> Owns(s', x)
    ensures OwnedAgent(w, s', a)
  {
    var x :| Owns(s, x) && x in w.graph && w.graph[x].agent == a;
    assert Owns(s', x);
  }

  lemma PerformKeepsSlots(w: Workload, s: State, d: Decision)
    requires SlotsBounded(w, s) && Justified(w, s, d)
    ensures SlotsBounded(w, Perform(w, s, d))
  {
    WorkersAfter(w, s, d);
  }

  /** Only a start adds a worker. */
  lemma WorkersAfter(w: Workload, s: State, d: Decision)
    requires Justified(w, s, d)
    ensures |Perform(w, s, d).workers| <= |s.workers| + Count(d.FinishStart?)
  {
    match d
    case FinishStart(t, next) => MapSize(s.workers, t.id, Worker(w.body(t, DependencyOutcomes(s, t)), 0, 0));
    case Deliver(t, m) => MapSize(s.workers, t.id, Taken(s.workers, t.id)[t.id]);
    case Retire(t, raised) => MapSize(s.workers, t.id, s.workers[t.id]);
    case _ =>
  }

  // ---------- The outcome table ----------

  /** Dependencies that have ended are read with the outcomes they keep for good. */
  lemma ReadsAgree(w: Workload, s: State, m: Verdicts, t: Dag.Task)
    requires OutcomesAgree(w, s, m) && DependenciesTerminal(s, t)
    ensures AllEnded(m, t.deps) && DependencyOutcomes(s, t) == EndedOutcomes(m, t.deps)
  {
    forall d | d in t.deps ensures d in s.outcomes && d in m && m[d] == Ended(s.outcomes[d]) {
      assert TerminalAgrees(s, m, d);
    }
  }

  /** Ended tasks and running bodies stay in agreement as more tasks end. */
  lemma OutcomesCarryOver(w: Workload, s: State, s': State, m: Verdicts)
    requires OutcomesAgree(w, s, m) && s.terminal <= s'.terminal
    requires forall id :: id in s'.workers ==> id in s.workers && s'.workers[id].trace == s.workers[id].trace
    requires forall id :: id in s.terminal && id in s.outcomes ==>
      id in s'.outcomes && s'.outcomes[id] == s.outcomes[id]
    ensures forall id {:trigger TerminalAgrees(s', m, id)} :: id in s.terminal ==> TerminalAgrees(s', m, id)
    ensures forall id {:trigger WorkerSound(w, s', m, id)} :: id in s'.workers ==> WorkerSound(w, s', m, id)
  {
    forall id | id in s.terminal ensures TerminalAgrees(s', m, id) { assert TerminalAgrees(s, m, id); }
    forall id | id in s'.workers ensures WorkerSound(w, s', m, id) { assert WorkerSound(w, s, m, id); }
  }

  lemma EndedIsNotPending(w: Workload, s: State, id: string)
    requires Partitioned(w, s) && id in s.pending
    ensures id !in s.terminal && id !in s.workers && id in w.graph
  {
    assert PlacedOnce(w, s, id);
  }

  lemma SkippingAgrees(w: Workload, s: State, m: Verdicts, t: Dag.Task)
    requires Solves(w, m) && OutcomesAgree(w, s, m) && Partitioned(w, s) && Justified(w, s, SkipTask(t))
    ensures OutcomesAgree(w, Perform(w, s, SkipTask(t)), m)
  {
    var s' := Perform(w, s, SkipTask(t));
    ReadsAgree(w, s, m, t);
    assert m[t.id] == VerdictOf(w, m, t.id);
    EndedIsNotPending(w, s, t.id);
    OutcomesCarryOver(w, s, s', m);
  }

  lemma StartingAgrees(w: Workload, s: State, m: Verdicts, t: Dag.Task, next: nat)
    requires OutcomesAgree(w, s, m) && Partitioned(w, s) && Justified(w, s, BeginStart(t, next))
    ensures OutcomesAgree(w, Perform(w, s, BeginStart(t, next)), m)
  {
    var s' := Perform(w, s, BeginStart(t, next));
    ReadsAgree(w, s, m, t);
    EndedIsNotPending(w, s, t.id);
    OutcomesCarryOver(w, s, s', m);
    assert Runnable(s', m, t);
  }

  lemma WorkerStartsSound(w: Workload, s: State, m: Verdicts, t: Dag.Task, next: nat)
    requires OutcomesAgree(w, s, m) && PcSound(w, s) && Justified(w, s, FinishStart(t, next))
    ensures OutcomesAgree(w, Perform(w, s, FinishStart(t, next)), m)
  {
    var s' := Perform(w, s, FinishStart(t, next));
    ReadsAgree(w, s, m, t);
    forall x | x in s.terminal ensures TerminalAgrees(s', m, x) { assert TerminalAgrees(s, m, x); }
    forall x | x in s'.workers ensures WorkerSound(w, s', m, x) {
      if x != t.id { assert WorkerSound(w, s, m, x); }
    }
  }

  /** The finish message is a worker's last item, so the table already holds its last outcome. */
  lemma RetiringAgrees(w: Workload, s: State, m: Verdicts, t: Dag.Task, raised: bool)
    requires Solves(w, m) && OutcomesAgree(w, s, m) && QueueSound(s) && Justified(w, s, Retire(t, raised))
    ensures OutcomesAgree(w, Perform(w, s, Retire(t, raised)), m)
  {
    var s' := Perform(w, s, Retire(t, raised));
    HeadOfQueue(s);
    assert QueueMatches(s, t.id) && WorkerSound(w, s, m, t.id);
    assert m[t.id] == VerdictOf(w, m, t.id);
    OutcomesCarryOver(w, s, s', m);
    if !raised { assert TerminalAgrees(s', m, t.id); }
  }

  lemma PerformKeepsOutcomes(w: Workload, s: State, m: Verdicts, d: Decision)
    requires Solves(w, m) && OutcomesAgree(w, s, m) && Partitioned(w, s) && PcSound(w, s) && QueueSound(s)
    requires Justified(w, s, d)
    ensures OutcomesAgree(w, Perform(w, s, d), m)
  {
    match d
    case SkipTask(t) => SkippingAgrees(w, s, m, t);
    case BeginStart(t, next) => StartingAgrees(w, s, m, t, next);
    case FinishStart(t, next) => WorkerStartsSound(w, s, m, t, next);
    case Retire(t, raised) => RetiringAgrees(w, s, m, t, raised);
    case EndSkip(t) =>
      assert TerminalAgrees(Perform(w, s, d), m, t.id);
      OutcomesCarryOver(w, s, Perform(w, s, d), m);
    case _ => OutcomesCarryOver(w, s, Perform(w, s, d), m);
  }

  // ---------- The queue ----------

  lemma {:induction false} ProjectHead(queue: seq<Item>, id: string)
    requires queue != []
    ensures Project(queue, id) == (if queue[0].id == id then [queue[0]] else []) + Project(queue[1..], id)
  {
    if |queue| > 1 {
      var n := |queue| - 1;
      ProjectHead(queue[..n], id);
      assert queue[..n][1..] == queue[1..][..n - 1];
    }
  }

  /** The item at the head of the queue is the next one its worker's trace has to show. */
  lemma HeadOfQueue(s: State)
    requires QueueSound(s) && s.queue != [] && s.queue[0].id in s.workers
    ensures var id := s.queue[0].id; var x := s.workers[id];
      && x.taken < x.sent <= |x.trace.steps| + 1 && s.queue[0] == ItemAt(id, x.trace, x.taken)
      && Project(s.queue[1..], id) == Items(id, x.trace, x.taken + 1, x.sent)
  {
    var id := s.queue[0].id;
    var x := s.workers[id];
    assert QueueMatches(s, id);
    ProjectHead(s.queue, id);
    var items := Items(id, x.trace, x.taken, x.sent);
    assert items == [s.queue[0]] + Project(s.queue[1..], id);
    assert items[0] == s.queue[0];
    assert Items(id, x.trace, x.taken + 1, x.sent) == items[1..];
  }

  lemma PerformKeepsQueue(w: Workload, s: State, d: Decision)
    requires QueueSound(s) && Partitioned(w, s) && Justified(w, s, d) && PcSound(w, s)
    ensures QueueSound(Perform(w, s, d))
  {
    match d
    case SkipTask(t) => EndedIsNotPending(w, s, t.id); SameQueue(s, Perform(w, s, d));
    case BeginStart(t, next) => EndedIsNotPending(w, s, t.id); SameQueue(s, Perform(w, s, d));
    case FinishStart(t, next) => NewWorkerIsQuiet(w, s, t, next);
    case Deliver(t, m) => HeadLeavesQueue(w, s, d);
    case Retire(t, raised) => HeadLeavesQueue(w, s, d);
    case _ => SameQueue(s, Perform(w, s, d));
  }

  lemma SameQueue(s: State, s': State)
    requires QueueSound(s) && s'.queue == s.queue && s'.workers == s.workers && (s.pc.Aborted? ==> s'.pc.Aborted?)
    requires forall id :: id in s.workers && id in s.outcomes ==> id in s'.outcomes && s'.outcomes[id] == s.outcomes[id]
    ensures QueueSound(s')
  {
    forall id | id in s'.workers ensures QueueMatches(s', id) { assert QueueMatches(s, id); }
  }

  lemma NewWorkerIsQuiet(w: Workload, s: State, t: Dag.Task, next: nat)
    requires QueueSound(s) && Partitioned(w, s) && PcSound(w, s) && s.pc == Starting(t, next)
    ensures QueueSound(Perform(w, s, FinishStart(t, next)))
  {
    var s' := Perform(w, s, FinishStart(t, next));
    assert PlacedOnce(w, s, t.id);
    QueueAvoids(s, t.id);
    forall id | id in s'.workers ensures QueueMatches(s', id) {
      if id != t.id { assert QueueMatches(s, id); }
    }
  }

  lemma HeadLeavesQueue(w: Workload, s: State, d: Decision)
    requires QueueSound(s) && Justified(w, s, d) && (d.Deliver? || d.Retire?)
    ensures QueueSound(Perform(w, s, d))
  {
    var s' := Perform(w, s, d);
    HeadOfQueue(s);
    assert QueueMatches(s, d.t.id);
    forall id | id in s'.workers ensures QueueMatches(s', id) {
      assert QueueMatches(s, id);
      ProjectHead(s.queue, id);
    }
    if d.Retire? && !d.raised { NothingAfterFinish(s, d.t.id); }
  }

  /** A task that is not running has nothing on the queue. */
  lemma QueueAvoids(s: State, id: string)
    requires !s.pc.Aborted? && QueueSound(s) && id !in s.workers
    ensures Project(s.queue, id) == []
  {
    ProjectNothing(s.queue, id);
  }

  lemma {:induction false} ProjectNothing(queue: seq<Item>, id: string)
    ensures Project(queue, id) == [] <==> forall i :: 0 <= i < |queue| ==> queue[i].id != id
  {
    if queue != [] {
      var n := |queue| - 1;
      ProjectNothing(queue[..n], id);
      if Project(queue, id) == [] {
        forall i | 0 <= i < |queue| ensures queue[i].id != id {
          if i < n { assert queue[..n][i] == queue[i]; }
        }
      }
    }
  }

  lemma NothingAfterFinish(s: State, id: string)
    requires QueueSound(s) && s.queue != [] && id in s.workers && s.queue[0].WorkerFinished? && s.queue[0].id == id
    ensures forall i :: 0 <= i < |s.queue[1..]| ==> s.queue[1..][i].id != id
  {
    HeadOfQueue(s);
    assert QueueMatches(s, id);
    ProjectNothing(s.queue[1..], id);
  }

  // ---------- Scans and the absence of deadlock ----------

  /** Growing `active_agents` and shrinking `pending` keep the tasks a scan passed over held. */
  lemma HeldCarriesOver(w: Workload, s: State, s': State, k: nat)
    requires HeldBefore(w, s, k)
    requires s'.pending <= s.pending && s'.terminal == s.terminal && s.busy <= s'.busy
    requires forall id :: id in s.terminal ==> OutcomeAt(s'.outcomes, id) == OutcomeAt(s.outcomes, id)
    ensures HeldBefore(w, s', k)
  {
    forall j: nat | j < k ensures HeldAt(w, s', j) {
      assert HeldAt(w, s, j);
      if j < |w.order| && w.order[j] in s'.pending && w.order[j] in w.graph {
        var t := w.graph[w.order[j]];
        if DependenciesTerminal(s, t) {
          assert DependencyOutcomes(s', t) == DependencyOutcomes(s, t);
        }
      }
    }
  }

  lemma {:induction false} NothingPending(w: Workload, s: State, j: nat)
    requires Valid(w) && Partitioned(w, s) && s.pc.Wait? && s.workers == map[]
    requires HeldBefore(w, s, |w.order|) && s.busy == {}
    requires j < |w.order|
    ensures w.order[j] !in s.pending
  {
    assert HeldAt(w, s, j) && Dag.FollowsDependencies(w.graph, w.order, j);
    var t := w.graph[w.order[j]];
    forall d | d in t.deps ensures d in s.terminal {
      assert PlacedOnce(w, s, d);
      var i :| 0 <= i < j && w.order[i] == d;
      NothingPending(w, s, i);
    }
  }

  /** With nothing running, a scan that made no progress has left nothing pending. */
  lemma NoDeadlock(w: Workload, s: State)
    requires Valid(w) && Partitioned(w, s) && AgentsExclusive(w, s) && ScanSound(w, s)
    requires s.pc.Wait? && s.workers == map[]
    ensures s.pending == {}
  {
    if a :| a in s.busy {
      assert false;
    }
    assert s.busy == {};
    if id :| id in s.pending {
      assert PlacedOnce(w, s, id);
      assert id in Elements(w.order);
      var j :| 0 <= j < |w.order| && w.order[j] == id;
      NothingPending(w, s, j);
    }
  }

  /** The scan only passes over tasks that are held. */
  lemma PassedOverIsHeld(w: Workload, s: State, k: nat, progress: bool)
    requires k < |w.order| && DecideScan(w, s, k, progress) == Goto(Scan(k + 1, progress))
    ensures HeldAt(w, s, k)
  {
  }

  lemma PassingOver(w: Workload, s: State, k: nat, progress: bool)
    requires HeldBefore(w, s, k) && HeldAt(w, s, k)
    ensures HeldBefore(w, s.(pc := Scan(k + 1, progress)), k + 1)
  {
    HeldCarriesOver(w, s, s.(pc := Scan(k + 1, progress)), k + 1) by {
      forall j: nat | j < k + 1 ensures HeldAt(w, s, j) { }
    }
  }

  lemma StartingHolds(w: Workload, s: State, k: nat, t: Dag.Task)
    requires Partitioned(w, s) && HeldBefore(w, s, k) && Justified(w, s, BeginStart(t, k + 1))
    ensures HeldBefore(w, Perform(w, s, BeginStart(t, k + 1)), k + 1)
  {
    var s' := Perform(w, s, BeginStart(t, k + 1));
    EndedIsNotPending(w, s, t.id);
    HeldCarriesOver(w, s, s', k);
    forall j: nat | j < k + 1 ensures HeldAt(w, s', j) {
      if j == k { assert w.order[j] !in s'.pending; }
    }
  }

  lemma ScanDrained(w: Workload, s: State)
    requires s.pc.Scan? && HeldBefore(w, s, s.pc.k) && s.pc.k >= |w.order|
    ensures HeldBefore(w, s.(pc := Wait), |w.order|)
  {
    HeldCarriesOver(w, s, s.(pc := Wait), |w.order|) by {
      forall j: nat | j < |w.order| ensures HeldAt(w, s, j) { }
    }
  }

  lemma ScanMovesOn(w: Workload, s: State, k: nat, progress: bool)
    requires Dag.Closed(w.graph) && Partitioned(w, s) && s.pc == Scan(k, progress) && HeldBefore(w, s, k)
    ensures ScanSound(w, Perform(w, s, DecideScan(w, s, k, progress)))
  {
    var d := DecideScan(w, s, k, progress);
    if k >= |w.order| {
      ScanDrained(w, s);
    } else if d.BeginStart? {
      DecisionsAreJustified(w, s);
      StartingHolds(w, s, k, d.t);
    } else if d == Goto(Scan(k + 1, progress)) {
      PassedOverIsHeld(w, s, k, progress);
      PassingOver(w, s, k, progress);
    }
  }

  lemma LoopKeepsScan(w: Workload, s: State)
    requires Valid(w) && Partitioned(w, s) && PcSound(w, s) && AgentsExclusive(w, s) && ScanSound(w, s)
    ensures ScanSound(w, LoopStep(w, s))
  {
    match s.pc
    case Scan(k, progress) => ScanMovesOn(w, s, k, progress);
    case Starting(t, next) => HeldCarriesOver(w, s, LoopStep(w, s), next);
    case Wait => if s.workers == map[] { NoDeadlock(w, s); }
    case _ =>
  }

  lemma LoopKeepsInvariant(w: Workload, s: State, m: Verdicts)
    requires Valid(w) && Solves(w, m) && Invariant(w, s, m)
    ensures Invariant(w, LoopStep(w, s), m)
  {
    var d := Decide(w, s);
    DecisionsAreJustified(w, s);
    PerformKeepsPartition(w, s, d);
    PerformKeepsPc(w, s, d);
    PerformKeepsAgents(w, s, d);
    PerformKeepsSlots(w, s, d);
    PerformKeepsOutcomes(w, s, m, d);
    PerformKeepsQueue(w, s, d);
    LoopKeepsScan(w, s);
  }

  // ---------- Workers ----------

  lemma PumpKeepsQueue(s: State, id: string)
    requires QueueSound(s) && CanPump(s, id)
    ensures QueueSound(PumpStep(s, id))
  {
    var s' := PumpStep(s, id);
    forall x | x in s'.workers ensures QueueMatches(s', x) {
      assert QueueMatches(s, x);
      assert s'.queue[..|s.queue|] == s.queue;
      if x == id {
        var y := s.workers[id];
        assert Items(id, y.trace, y.taken, y.sent + 1)
          == Items(id, y.trace, y.taken, y.sent) + [ItemAt(id, y.trace, y.sent)];
      }
    }
  }

  lemma PumpKeepsScan(w: Workload, s: State, id: string)
    requires Partitioned(w, s) && CanPump(s, id) && ScanSound(w, s)
    ensures ScanSound(w, PumpStep(s, id))
  {
    var s' := PumpStep(s, id);
    assert PlacedOnce(w, s, id);
    MapSize(s.workers, id, s'.workers[id]);
    match s.pc
    case Scan(k, _) => HeldCarriesOver(w, s, s', k);
    case Starting(_, next) => HeldCarriesOver(w, s, s', next);
    case Wait => if |s.workers| < w.slots { HeldCarriesOver(w, s, s', |w.order|); }
    case _ =>
  }

  lemma PumpKeepsOutcomes(w: Workload, s: State, m: Verdicts, id: string)
    requires Partitioned(w, s) && CanPump(s, id) && OutcomesAgree(w, s, m) && PcSound(w, s)
    ensures OutcomesAgree(w, PumpStep(s, id), m) && Partitioned(w, PumpStep(s, id))
  {
    var s' := PumpStep(s, id);
    forall x ensures PlacedOnce(w, s', x) { assert PlacedOnce(w, s, x); }
    assert PlacedOnce(w, s, id);
    OutcomesCarryOver(w, s, s', m);
  }

  lemma PumpKeepsInvariant(w: Workload, s: State, m: Verdicts, id: string)
    requires Invariant(w, s, m) && CanPump(s, id)
    ensures Invariant(w, PumpStep(s, id), m)
  {
    MapSize(s.workers, id, PumpStep(s, id).workers[id]);
    PumpKeepsOutcomes(w, s, m, id);
    PumpKeepsScan(w, s, id);
    PumpKeepsQueue(s, id);
    SameOwners(w, s, PumpStep(s, id));
  }

  // ---------- All runs ----------

  lemma InvariantAtStart(w: Workload, m: Verdicts)
    requires Valid(w) && Solves(w, m)
    ensures Invariant(w, Init(w), m)
  {
    forall id ensures PlacedOnce(w, Init(w), id) { }
  }

  lemma {:induction false} InvariantAlways(w: Workload, m: Verdicts, actors: seq<Actor>)
    requires Valid(w) && Solves(w, m)
    ensures Invariant(w, Run(w, actors), m)
  {
    if actors == [] {
      InvariantAtStart(w, m);
    } else {
      var before, a := actors[..|actors| - 1], actors[|actors| - 1];
      InvariantAlways(w, m, before);
      var s := Run(w, before);
      if a.Loop? {
        LoopKeepsInvariant(w, s, m);
      } else if CanPump(s, a.id) {
        PumpKeepsInvariant(w, s, m, a.id);
      }
    }
  }
}
