/** What holds of every run of the concurrent scheduler: safety, progress, termination, and agreement with
    the evaluation of the graph, hence with every other run and with the serial loop. */
module SchedulerTheorems {
  import opened Common
  import opened Events
  import opened Workload
  import opened Scheduler
  import opened SchedulerInvariant
  import Dag

  // ---------- Safety ----------

  /** In every reachable state: slots are never exceeded, running tasks never share an agent, exactly their agents
      (and that of the task being started) are active, every task is in one place, and the scheduler only
      waits for the queue when the slots are full or every pending task is held. */
  lemma SafeAlways(w: Workload, actors: seq<Actor>)
    requires Valid(w)
    ensures var s := Run(w, actors);
      && |s.workers| <= w.slots && s.peak <= w.slots
      && (forall x :: x in s.workers ==> x in w.graph)
      && (forall x, y :: x in s.workers && y in s.workers && w.graph[x].agent == w.graph[y].agent ==> x == y)
      && (forall a :: a in s.busy <==> OwnedAgent(w, s, a))
      && (forall id :: PlacedOnce(w, s, id))
      && !s.pc.Deadlocked?
      && (s.pc.Wait? ==>
          |s.workers| == w.slots || forall id :: id in s.pending ==> id in w.graph && Held(s, w.graph[id]))
  {
    var m := EvaluationExists(w);
    InvariantAlways(w, m, actors);
    var s := Run(w, actors);
    if s.pc.Wait? && |s.workers| < w.slots {
      forall id | id in s.pending ensures id in w.graph && Held(s, w.graph[id]) {
        assert PlacedOnce(w, s, id);
        assert id in Elements(w.order);
        var j :| 0 <= j < |w.order| && w.order[j] == id;
        assert HeldAt(w, s, j);
      }
    }
    forall a | OwnedAgent(w, s, a) ensures a in s.busy { }
    forall x, y | x in s.workers && y in s.workers && w.graph[x].agent == w.graph[y].agent ensures x == y {
      assert NoClash(w, s, x, y);
    }
  }

  // ---------- Progress ----------

  predicate Effective(w: Workload, s: State, a: Actor) {
    match a
    case Loop => !Decide(w, s).Stay?
    case Pump(id) => CanPump(s, id)
  }

  lemma QueueFeedsLoop(w: Workload, s: State, m: Verdicts) returns (a: Actor)
    requires Invariant(w, s, m) && s.pc.Wait? && s.workers != map[]
    ensures Effective(w, s, a)
  {
    if s.queue != [] {
      assert s.queue[0].id in s.workers;
      assert WorkerSound(w, s, m, s.queue[0].id);
      a := Loop;
    } else {
      var id :| id in s.workers;
      assert QueueMatches(s, id);
      assert |Items(id, s.workers[id].trace, s.workers[id].taken, s.workers[id].sent)| == 0;
      a := Pump(id);
    }
  }

  /** Deadlock freedom: until the run is over some coroutine has a step. */
  lemma AlwaysAStep(w: Workload, actors: seq<Actor>)
    requires Valid(w)
    ensures Over(Run(w, actors)) || exists a :: Effective(w, Run(w, actors), a)
  {
    var m := EvaluationExists(w);
    InvariantAlways(w, m, actors);
    var s := Run(w, actors);
    if !Over(s) {
      if s.pc.Wait? && s.workers != map[] {
        var a := QueueFeedsLoop(w, s, m);
      } else {
        assert Effective(w, s, Loop);
      }
    }
  }

  // ---------- Termination ----------

  function PendingWork(s: State): nat {
    2 * |s.pending| + Count(s.pc.Starting? || s.pc.Skipping?)
  }

  /** Items the workers of the first n tasks still have to queue. */
  function Unsent(w: Workload, workers: map<string, Worker>, n: nat): nat
    requires n <= |w.order|
  {
    if n == 0 then 0
    else
      Unsent(w, workers, n - 1)
      + (if w.order[n - 1] in workers then UnsentBy(workers[w.order[n - 1]]) else 0)
  }

  function UnsentBy(x: Worker): nat {
    if x.sent <= |x.trace.steps| then |x.trace.steps| + 1 - x.sent else 0
  }

  function PcRank(w: Workload, pc: Pc): nat {
    var n := |w.order|;
    match pc
    case Top => n + 3
    case Scan(k, progress) => (if progress then n + 3 else 2) + (if k < n then n - k else 0)
    case Wait => 1
    case _ => 0
  }

  /** The work left, as numbers. */
  datatype Measure = Measure(pending: nat, unsent: nat, queued: nat, rank: nat)

  function MeasureOf(w: Workload, s: State): Measure {
    Measure(PendingWork(s), Unsent(w, s.workers, |w.order|), |s.queue|, PcRank(w, s.pc))
  }

  predicate Smaller(a: Measure, b: Measure) {
    || a.pending < b.pending
    || (a.pending == b.pending
        && (a.unsent < b.unsent
            || (a.unsent == b.unsent && (a.queued < b.queued || (a.queued == b.queued && a.rank < b.rank)))))
  }

  /** The lexicographic measure of `s'` is below that of `s`. */
  predicate LessWork(w: Workload, s': State, s: State) {
    Smaller(MeasureOf(w, s'), MeasureOf(w, s))
  }

  /** Unsent work counts only `sent`, so it does not grow when workers advance, are read from, or retire. */
  lemma {:induction false} UnsentShrinks(w: Workload, a: map<string, Worker>, b: map<string, Worker>, n: nat)
    requires n <= |w.order|
    requires forall id :: id in b ==> id in a && UnsentBy(b[id]) <= UnsentBy(a[id])
    ensures Unsent(w, b, n) <= Unsent(w, a, n)
    ensures forall k :: 0 <= k < n && w.order[k] in b && UnsentBy(b[w.order[k]]) < UnsentBy(a[w.order[k]]) ==>
      Unsent(w, b, n) < Unsent(w, a, n)
  {
    if n > 0 { UnsentShrinks(w, a, b, n - 1); }
  }

  lemma DecisionLessensWork(w: Workload, s: State, d: Decision)
    requires Justified(w, s, d) && QueueSound(s) && !d.Stay? && (d.Goto? ==> PcRank(w, d.pc) < PcRank(w, s.pc))
    ensures LessWork(w, Perform(w, s, d), s)
  {
    var s' := Perform(w, s, d);
    match d
    case Deliver(t, _) => UnsentShrinks(w, s.workers, s'.workers, |w.order|);
    case Retire(t, _) => UnsentShrinks(w, s.workers, s'.workers, |w.order|);
    case SkipTask(t) => assert |s'.pending| == |s.pending| - 1;
    case BeginStart(t, _) => assert |s'.pending| == |s.pending| - 1;
    case _ =>
  }

  lemma GotoDescends(w: Workload, s: State)
    requires Decide(w, s).Goto?
    ensures PcRank(w, Decide(w, s).pc) < PcRank(w, s.pc)
  {
  }

  lemma LoopLessensWork(w: Workload, s: State, m: Verdicts)
    requires Valid(w) && Invariant(w, s, m) && !Decide(w, s).Stay?
    ensures LessWork(w, LoopStep(w, s), s)
  {
    DecisionsAreJustified(w, s);
    if Decide(w, s).Goto? { GotoDescends(w, s); }
    DecisionLessensWork(w, s, Decide(w, s));
  }

  lemma PumpLessensWork(w: Workload, s: State, m: Verdicts, id: string)
    requires Valid(w) && Invariant(w, s, m) && CanPump(s, id)
    ensures LessWork(w, PumpStep(s, id), s)
  {
    assert WorkerSound(w, s, m, id) && id in Elements(w.order);
    var k :| 0 <= k < |w.order| && w.order[k] == id;
    UnsentShrinks(w, s.workers, PumpStep(s, id).workers, |w.order|);
    assert UnsentBy(PumpStep(s, id).workers[w.order[k]]) < UnsentBy(s.workers[w.order[k]]);
  }

  /** Every effective step of every run leaves less work. */
  lemma StepsLessenWork(w: Workload, actors: seq<Actor>, a: Actor)
    requires Valid(w) && Effective(w, Run(w, actors), a)
    ensures LessWork(w, Act(w, Run(w, actors), a), Run(w, actors))
  {
    var m := EvaluationExists(w);
    InvariantAlways(w, m, actors);
    if a.Loop? { LoopLessensWork(w, Run(w, actors), m); } else { PumpLessensWork(w, Run(w, actors), m, a.id); }
  }

  function Prefix(schedule: nat -> Actor, n: nat): seq<Actor> {
    seq(n, i requires 0 <= i < n => schedule(i))
  }

  lemma OneMoreActor(w: Workload, actors: seq<Actor>, a: Actor)
    ensures Run(w, actors + [a]) == Act(w, Run(w, actors), a)
  {
    assert (actors + [a])[..|actors|] == actors;
  }

  lemma OneMoreTurn(w: Workload, schedule: nat -> Actor, n: nat)
    ensures Run(w, Prefix(schedule, n + 1)) == Act(w, Run(w, Prefix(schedule, n)), schedule(n))
  {
    OneMoreActor(w, Prefix(schedule, n), schedule(n));
    assert Prefix(schedule, n + 1) == Prefix(schedule, n) + [schedule(n)];
  }

  function After(w: Workload, schedule: nat -> Actor, n: nat): State {
    Run(w, Prefix(schedule, n))
  }

  /** The n-th turn of the schedule finds the run over, or does something. */
  ghost predicate Worthwhile(w: Workload, schedule: nat -> Actor, n: nat) {
    Over(After(w, schedule, n)) || Effective(w, After(w, schedule, n), schedule(n))
  }

  ghost predicate ComesAgain(w: Workload, schedule: nat -> Actor, n: nat) {
    exists j: nat :: j >= n && Worthwhile(w, schedule, j)
  }

  /** The schedule may idle, but not forever. */
  ghost predicate Persistent(w: Workload, schedule: nat -> Actor) {
    forall n: nat :: ComesAgain(w, schedule, n)
  }

  lemma IdleTurn(w: Workload, schedule: nat -> Actor, n: nat)
    requires !Worthwhile(w, schedule, n)
    ensures After(w, schedule, n + 1) == After(w, schedule, n)
  {
    OneMoreTurn(w, schedule, n);
  }

  lemma {:induction false} IdleUntil(w: Workload, schedule: nat -> Actor, n: nat, next: nat) returns (i: nat)
    requires n <= next && Worthwhile(w, schedule, next)
    ensures n <= i && After(w, schedule, i) == After(w, schedule, n) && Worthwhile(w, schedule, i)
    decreases next - n
  {
    if Worthwhile(w, schedule, n) {
      i := n;
    } else {
      IdleTurn(w, schedule, n);
      i := IdleUntil(w, schedule, n + 1, next);
    }
  }

  lemma TurnLessensWork(w: Workload, schedule: nat -> Actor, n: nat)
    requires Valid(w) && Effective(w, After(w, schedule, n), schedule(n))
    ensures LessWork(w, After(w, schedule, n + 1), After(w, schedule, n))
  {
    OneMoreTurn(w, schedule, n);
    StepsLessenWork(w, Prefix(schedule, n), schedule(n));
  }

  lemma NextMove(w: Workload, schedule: nat -> Actor, n: nat) returns (k: nat)
    requires Persistent(w, schedule)
    ensures n <= k && After(w, schedule, k) == After(w, schedule, n) && Worthwhile(w, schedule, k)
  {
    assert ComesAgain(w, schedule, n);
    var next: nat :| next >= n && Worthwhile(w, schedule, next);
    k := IdleUntil(w, schedule, n, next);
  }

  lemma {:induction false} EndsFrom(w: Workload, schedule: nat -> Actor, n: nat, m: Measure) returns (k: nat)
    requires Valid(w) && Persistent(w, schedule) && m == MeasureOf(w, After(w, schedule, n))
    ensures k >= n && Over(After(w, schedule, k))
    decreases m.pending, m.unsent, m.queued, m.rank
  {
    if Over(After(w, schedule, n)) {
      k := n;
    } else {
      var i, next := NextMeasure(w, schedule, n);
      k := EndsFrom(w, schedule, i, next);
    }
  }

  lemma NextMeasure(w: Workload, schedule: nat -> Actor, n: nat) returns (i: nat, m: Measure)
    requires Valid(w) && Persistent(w, schedule) && !Over(After(w, schedule, n))
    ensures i > n && m == MeasureOf(w, After(w, schedule, i))
    ensures Smaller(m, MeasureOf(w, After(w, schedule, n)))
  {
    var k := NextMove(w, schedule, n);
    TurnLessensWork(w, schedule, k);
    i, m := k + 1, MeasureOf(w, After(w, schedule, k + 1));
  }

  /** Termination: a schedule that does not idle forever reaches the end of the run. */
  lemma PersistentSchedulesEnd(w: Workload, schedule: nat -> Actor)
    requires Valid(w) && Persistent(w, schedule)
    ensures exists k: nat :: Over(After(w, schedule, k))
  {
    var k := EndsFrom(w, schedule, 0, MeasureOf(w, After(w, schedule, 0)));
  }

  predicate TurnOf(schedule: nat -> Actor, a: Actor, n: nat) {
    schedule(n) == a
  }

  ghost predicate AgainAndAgain(schedule: nat -> Actor, a: Actor) {
    forall n: nat :: HasLaterTurn(schedule, a, n)
  }

  ghost predicate HasLaterTurn(schedule: nat -> Actor, a: Actor, n: nat) {
    exists j: nat :: j >= n && TurnOf(schedule, a, j)
  }

  /** The scheduler and every task's worker get their turns again and again. */
  ghost predicate Fair(w: Workload, schedule: nat -> Actor) {
    AgainAndAgain(schedule, Loop) && forall id :: id in w.graph ==> AgainAndAgain(schedule, Pump(id))
  }

  /** An actor that has a step keeps it until some actor moves. */
  lemma {:induction false} StepIsTaken(w: Workload, schedule: nat -> Actor, a: Actor, n: nat, j: nat)
    requires n <= j && TurnOf(schedule, a, j) && Effective(w, After(w, schedule, n), a)
    ensures ComesAgain(w, schedule, n)
    decreases j - n
  {
    if !Worthwhile(w, schedule, n) {
      assert n < j;
      IdleTurn(w, schedule, n);
      StepIsTaken(w, schedule, a, n + 1, j);
      var i: nat :| i >= n + 1 && Worthwhile(w, schedule, i);
    }
  }

  lemma WorkersAreTasks(w: Workload, actors: seq<Actor>, id: string)
    requires Valid(w) && id in Run(w, actors).workers
    ensures id in w.graph
  {
    SafeAlways(w, actors);
  }

  lemma FairIsPersistent(w: Workload, schedule: nat -> Actor)
    requires Valid(w) && Fair(w, schedule)
    ensures Persistent(w, schedule)
  {
    forall n: nat ensures ComesAgain(w, schedule, n) {
      AlwaysAStep(w, Prefix(schedule, n));
      if !Over(After(w, schedule, n)) {
        var a :| Effective(w, After(w, schedule, n), a);
        if a.Pump? { WorkersAreTasks(w, Prefix(schedule, n), a.id); }
        assert HasLaterTurn(schedule, a, n);
        var j: nat :| j >= n && TurnOf(schedule, a, j);
        StepIsTaken(w, schedule, a, n, j);
      } else {
        assert Worthwhile(w, schedule, n);
      }
    }
  }

  /** Every fair schedule ends the run. */
  lemma FairSchedulesEnd(w: Workload, schedule: nat -> Actor)
    requires Valid(w) && Fair(w, schedule)
    ensures exists k: nat :: Over(After(w, schedule, k))
  {
    FairIsPersistent(w, schedule);
    PersistentSchedulesEnd(w, schedule);
  }

  // ---------- The observed peak ----------

  lemma PumpKeepsPeak(s: State, id: string)
    ensures PumpStep(s, id).peak == s.peak && |PumpStep(s, id).workers| == |s.workers|
  {
    if CanPump(s, id) { MapSize(s.workers, id, s.workers[id].(sent := s.workers[id].sent + 1)); }
  }

  lemma PerformKeepsPeak(w: Workload, s: State, d: Decision)
    requires !d.FinishStart?
    ensures Perform(w, s, d).peak == s.peak && |Perform(w, s, d).workers| <= |s.workers|
  {
    match d {
      case Deliver(t, _) => if t.id in s.workers { MapSize(s.workers, t.id, Taken(s.workers, t.id)[t.id]); }
      case Retire(t, _) =>
        if t.id in s.workers { MapShrinks(s.workers, t.id); } else { assert s.workers - {t.id} == s.workers; }
      case _ =>
    }
  }

  /** The peak rises to the number of tasks at work and stays. */
  predicate Peaks(before: State, after: State) {
    after.peak == if |after.workers| > before.peak then |after.workers| else before.peak
  }

  lemma PeakStep(w: Workload, s: State, a: Actor)
    requires |s.workers| <= s.peak
    ensures Peaks(s, Act(w, s, a)) && |Act(w, s, a).workers| <= Act(w, s, a).peak
  {
    if a.Pump? {
      PumpKeepsPeak(s, a.id);
    } else if !Decide(w, s).FinishStart? {
      PerformKeepsPeak(w, s, Decide(w, s));
    }
  }

  /** How many tasks are at work, and the peak so far, after the first k steps. */
  function Working(w: Workload, actors: seq<Actor>, k: nat): nat
    requires k <= |actors|
  {
    |Run(w, actors[..k]).workers|
  }

  function PeakAt(w: Workload, actors: seq<Actor>, k: nat): nat
    requires k <= |actors|
  {
    Run(w, actors[..k]).peak
  }

  predicate Risen(working: nat, before: nat, after: nat) {
    working <= after && after == if working > before then working else before
  }

  lemma PeakRises(w: Workload, actors: seq<Actor>, k: nat)
    requires k < |actors| && Working(w, actors, k) <= PeakAt(w, actors, k)
    ensures Risen(Working(w, actors, k + 1), PeakAt(w, actors, k), PeakAt(w, actors, k + 1))
  {
    assert actors[..k + 1][..k] == actors[..k];
    PeakStep(w, Run(w, actors[..k]), actors[k]);
  }

  lemma {:induction false} PeakCovers(w: Workload, actors: seq<Actor>, k: nat, n: nat)
    requires k <= n <= |actors|
    ensures Working(w, actors, n) <= PeakAt(w, actors, n)
    ensures Working(w, actors, k) <= PeakAt(w, actors, n)
  {
    if n > 0 {
      PeakCovers(w, actors, if k < n then k else 0, n - 1);
      PeakRises(w, actors, n - 1);
    }
  }

  lemma {:induction false} PeakIsReached(w: Workload, actors: seq<Actor>, n: nat) returns (k: nat)
    requires n <= |actors|
    ensures k <= n && Working(w, actors, k) == PeakAt(w, actors, n)
  {
    k := 0;
    if n > 0 {
      k := PeakIsReached(w, actors, n - 1);
      PeakCovers(w, actors, 0, n - 1);
      PeakRises(w, actors, n - 1);
      if Working(w, actors, n) > PeakAt(w, actors, n - 1) { k := n; }
    }
  }

  /** The peak the scheduler reports is the largest number of tasks at work at any moment. */
  lemma PeakIsExact(w: Workload, actors: seq<Actor>)
    ensures forall k: nat :: k <= |actors| ==> Working(w, actors, k) <= Run(w, actors).peak
    ensures exists k: nat :: k <= |actors| && Working(w, actors, k) == Run(w, actors).peak
  {
    TakeAll(actors);
    forall k: nat | k <= |actors| ensures Working(w, actors, k) <= Run(w, actors).peak {
      PeakCovers(w, actors, k, |actors|);
    }
    var top := PeakIsReached(w, actors, |actors|);
  }

  // ---------- Agreement ----------

  /** A task that is started is recorded as running, with the degraded ancestry its dependencies give it. */
  lemma StartsAreRecorded(w: Workload, m: Verdicts, actors: seq<Actor>)
    requires Valid(w) && Solves(w, m)
    ensures var s := Run(w, actors); var d := Decide(w, s);
      d.BeginStart? ==>
        && AllEnded(m, d.t.deps) && d.t.id in LoopStep(w, s).outcomes
        && LoopStep(w, s).outcomes[d.t.id] ==
           Outcome(Running, None, None, [], 0, 0, DegradedAncestry(d.t.deps, EndedOutcomes(m, d.t.deps)))
  {
    var s := Run(w, actors);
    InvariantAlways(w, m, actors);
    var d := Decide(w, s);
    if d.BeginStart? { ReadsAgree(w, s, m, d.t); }
  }

  /** A finished run holds the evaluation of the graph; an aborted run met a task whose body raises. */
  lemma RunsEvaluate(w: Workload, m: Verdicts, actors: seq<Actor>)
    requires Valid(w) && Solves(w, m)
    ensures var s := Run(w, actors);
      && (s.pc.Done? ==> s.terminal == w.graph.Keys && Settled(m, s.outcomes))
      && (s.pc.Aborted? ==> s.pc.t.id in m && m[s.pc.t.id].Raises?)
  {
    InvariantAlways(w, m, actors);
    var s := Run(w, actors);
    if s.pc.Done? {
      forall id ensures id in s.terminal <==> id in w.graph { assert PlacedOnce(w, s, id); }
      forall id ensures id in s.outcomes <==> id in m { assert PlacedOnce(w, s, id); }
      forall id | id in m ensures m[id] == Ended(s.outcomes[id]) { assert TerminalAgrees(s, m, id); }
    }
  }

  /** The evaluation does not mention the slots or the order. */
  lemma SameEvaluation(w: Workload, w': Workload, m: Verdicts)
    requires Solves(w, m) && w'.graph == w.graph && w'.body == w.body
    ensures Solves(w', m)
  {
    forall id | id in w'.graph ensures m[id] == VerdictOf(w', m, id) { assert m[id] == VerdictOf(w, m, id); }
  }

  lemma SettledIsFunctional(m: Verdicts, a: map<string, Outcome>, b: map<string, Outcome>)
    requires Settled(m, a) && Settled(m, b)
    ensures a == b
  {
    forall id | id in a ensures a[id] == b[id] { assert m[id] == Ended(a[id]); }
  }

  /** How a run ends is settled by the evaluation: finished exactly when every task ends. */
  lemma EndIsSettled(w: Workload, m: Verdicts, actors: seq<Actor>)
    requires Valid(w) && Solves(w, m) && Over(Run(w, actors))
    ensures Run(w, actors).pc.Done? ==> Settled(m, Run(w, actors).outcomes)
    ensures Run(w, actors).pc.Done? <==> forall id :: id in m ==> m[id].Ended?
  {
    RunsEvaluate(w, m, actors);
    SafeAlways(w, actors);
  }

  /** The task's dependencies end and leave it to run. */
  ghost predicate RunsBody(w: Workload, m: Verdicts, id: string) {
    id in w.graph && AllEnded(m, w.graph[id].deps) && !BlockedByFailure(w.graph[id], EndedOutcomes(m, w.graph[id].deps))
  }

  /** The task runs and an exception escapes its body. */
  ghost predicate BreaksOff(w: Workload, m: Verdicts, id: string) {
    RunsBody(w, m, id) && w.body(w.graph[id], EndedOutcomes(m, w.graph[id].deps)).raised
  }

  lemma BreakingOffRaises(w: Workload, m: Verdicts, id: string)
    requires Solves(w, m) && id in w.graph
    ensures m[id].Raises? <==> BreaksOff(w, m, id)
  {
    assert m[id] == VerdictOf(w, m, id);
  }

  lemma {:induction false} EveryTaskEnds(w: Workload, m: Verdicts, k: nat)
    requires Valid(w) && Solves(w, m) && k < |w.order| && forall id :: id in w.graph ==> !BreaksOff(w, m, id)
    ensures w.order[k] in m && m[w.order[k]].Ended?
    decreases k
  {
    var id := w.order[k];
    forall d | d in w.graph[id].deps ensures d in m && m[d].Ended? {
      assert Dag.FollowsDependencies(w.graph, w.order, k);
      var i :| 0 <= i < k && w.order[i] == d;
      EveryTaskEnds(w, m, i);
    }
    assert m[id] == VerdictOf(w, m, id);
    BreakingOffRaises(w, m, id);
  }

  /** A run that is over has finished exactly when no task that runs breaks off. */
  lemma FinishedIff(w: Workload, m: Verdicts, actors: seq<Actor>)
    requires Valid(w) && Solves(w, m) && Over(Run(w, actors))
    ensures Run(w, actors).pc.Done? <==> forall id :: id in w.graph ==> !BreaksOff(w, m, id)
    ensures !Run(w, actors).pc.Done? ==> Run(w, actors).pc.Aborted? && BreaksOff(w, m, Run(w, actors).pc.t.id)
  {
    EndIsSettled(w, m, actors);
    RunsEvaluate(w, m, actors);
    SafeAlways(w, actors);
    if Run(w, actors).pc.Done? {
      forall id | id in w.graph ensures !BreaksOff(w, m, id) { BreakingOffRaises(w, m, id); }
    } else {
      BreakingOffRaises(w, m, Run(w, actors).pc.t.id);
    }
  }

  /** Confluence: neither the interleaving nor the number of slots shows in the result. */
  lemma Confluence(w: Workload, w': Workload, actors: seq<Actor>, actors': seq<Actor>)
    requires Valid(w) && Valid(w') && w'.graph == w.graph && w'.body == w.body
    requires Over(Run(w, actors)) && Over(Run(w', actors'))
    ensures var s, s' := Run(w, actors), Run(w', actors');
      (s.pc.Done? <==> s'.pc.Done?) && (s.pc.Done? ==> s.outcomes == s'.outcomes)
  {
    var m := EvaluationExists(w);
    SameEvaluation(w, w', m);
    EndIsSettled(w, m, actors);
    EndIsSettled(w', m, actors');
    if Run(w, actors).pc.Done? {
      SettledIsFunctional(m, Run(w, actors).outcomes, Run(w', actors').outcomes);
    }
  }
}
