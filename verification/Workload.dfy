/** What a fixed workflow computes, without saying when: task bodies, the skip rule, and the equations
    that give every task its verdict (the parts of fixed_dag.py shared by both of its loops). */
module Workload {
  import opened Common
  import opened Events
  import Dag

  /** `_TaskOutcome` */
  datatype Outcome = Outcome(
    status: TaskStatus,
    output: Option<string>,
    error: Option<string>,
    sources: seq<string>,
    turns: nat,
    toolCalls: nat,
    ancestry: seq<string>)

  /** One event of a task body, with the task's outcome record as it stands when the event is queued. */
  datatype Step = Step(move: Move, seen: Outcome)

  /** A finite run of a task body: its events, its last outcome, and whether an exception escaped. */
  datatype Trace = Trace(steps: seq<Step>, last: Outcome, raised: bool)

  /** A body is determined by the task and the outcomes of its dependencies, in declared order. */
  type Body = (Dag.Task, seq<Outcome>) -> Trace

  datatype Workload = Workload(graph: Dag.Graph, order: seq<string>, slots: nat, body: Body)

  ghost predicate Valid(w: Workload) {
    Dag.Closed(w.graph) && Dag.TopologicalOrder(w.graph, w.order) && w.slots >= 1
  }

  // ---------- What a task is told about its dependencies ----------

  function Failures(names: seq<string>, deps: seq<Outcome>): seq<string>
    requires |names| == |deps|
  {
    if names == [] then []
    else
      var n := |names| - 1;
      Failures(names[..n], deps[..n]) + (if deps[n].status.Bad() then [names[n]] else [])
  }

  function AncestryList(names: seq<string>, deps: seq<Outcome>): seq<string>
    requires |names| == |deps|
  {
    if names == [] then []
    else
      var n := |names| - 1;
      AncestryList(names[..n], deps[..n])
      + (if deps[n].status.Bad() || deps[n].status.Partial? then [names[n]] else [])
      + deps[n].ancestry
  }

  /** `degraded_ancestry` */
  function DegradedAncestry(names: seq<string>, deps: seq<Outcome>): seq<string>
    requires |names| == |deps|
  {
    Distinct(AncestryList(names, deps))
  }

  function SourceList(deps: seq<Outcome>): seq<string> {
    if deps == [] then [] else SourceList(deps[..|deps| - 1]) + deps[|deps| - 1].sources
  }

  /** `_task_source_ids` */
  function AllowedSources(direct: seq<string>, deps: seq<Outcome>): seq<string> {
    Distinct(direct + SourceList(deps))
  }

  function Join(names: seq<string>): string {
    if names == [] then ""
    else if |names| == 1 then names[0]
    else Join(names[..|names| - 1]) + ", " + names[|names| - 1]
  }

  /** Names joined part by part, separated by commas. */
  lemma {:induction false} JoinAppend(a: seq<string>, b: seq<string>)
    requires a != [] && b != []
    ensures Join(a + b) == Join(a) + ", " + Join(b)
    ensures |a| == 1 ==> Join(a) == a[0]
  {
    FrontOfSum(a, b);
    if |b| == 1 {
      assert a + b[..0] == a;
    } else {
      JoinAppend(a, b[..|b| - 1]);
    }
  }

  predicate BlockedByFailure(t: Dag.Task, deps: seq<Outcome>)
    requires |deps| == |t.deps|
  {
    Failures(t.deps, deps) != [] && !t.allowFailed
  }

  function SkipReason(t: Dag.Task, deps: seq<Outcome>): string
    requires |deps| == |t.deps|
  {
    "blocked by failed dependencies: " + Join(Failures(t.deps, deps))
  }

  function SkippedOutcome(t: Dag.Task, deps: seq<Outcome>): Outcome
    requires |deps| == |t.deps|
  {
    Outcome(Skipped, None, Some(SkipReason(t, deps)), [], 0, 0, [])
  }

  function StartedOutcome(t: Dag.Task, deps: seq<Outcome>): Outcome
    requires |deps| == |t.deps|
  {
    Outcome(Running, None, None, [], 0, 0, DegradedAncestry(t.deps, deps))
  }

  function TaskDraft(t: Dag.Task, m: Move): Draft {
    Draft(Some(t.agent), OnTask(t.id, m))
  }

  // ---------- Verdicts ----------

  /** How a task ends: with an outcome, with an escaping exception, or not at all because one of its
      dependencies never ended. */
  datatype Verdict = Ended(outcome: Outcome) | Raises | Unreached

  type Verdicts = map<string, Verdict>

  predicate AllEnded(m: Verdicts, names: seq<string>) {
    forall d :: d in names ==> d in m && m[d].Ended?
  }

  function EndedOutcomes(m: Verdicts, names: seq<string>): (r: seq<Outcome>)
    requires AllEnded(m, names)
    ensures |r| == |names|
  {
    seq(|names|, i requires 0 <= i < |names| => m[names[i]].outcome)
  }

  /** `outcomes[dependency]` for each dependency; a missing entry reads as the record's defaults. */
  function ReadOutcomes(outcomes: map<string, Outcome>, names: seq<string>): (r: seq<Outcome>)
    ensures |r| == |names|
  {
    seq(|names|, i requires 0 <= i < |names| => OutcomeAt(outcomes, names[i]))
  }

  function OutcomeAt(outcomes: map<string, Outcome>, id: string): Outcome {
    if id in outcomes then outcomes[id] else Outcome(Queued, None, None, [], 0, 0, [])
  }

  /** `m` says of every task that it ended as `outcomes` says. */
  ghost predicate Settled(m: Verdicts, outcomes: map<string, Outcome>) {
    outcomes.Keys == m.Keys && forall id :: id in m ==> m[id] == Ended(outcomes[id])
  }

  /** The verdict of a task once all its dependencies have ended. */
  function Settle(w: Workload, t: Dag.Task, deps: seq<Outcome>): Verdict
    requires |deps| == |t.deps|
  {
    if BlockedByFailure(t, deps) then Ended(SkippedOutcome(t, deps))
    else if w.body(t, deps).raised then Raises
    else Ended(w.body(t, deps).last)
  }

  function VerdictOf(w: Workload, m: Verdicts, id: string): Verdict
    requires id in w.graph
  {
    var t := w.graph[id];
    if AllEnded(m, t.deps) then Settle(w, t, EndedOutcomes(m, t.deps)) else Unreached
  }

  /** `m` is the recursive evaluation of the graph: every task's verdict follows from the verdicts of
      its dependencies alone. */
  ghost predicate Solves(w: Workload, m: Verdicts) {
    m.Keys == w.graph.Keys && forall id {:trigger VerdictOf(w, m, id)} :: id in w.graph ==> m[id] == VerdictOf(w, m, id)
  }

  lemma VerdictDependsOnDependencies(w: Workload, m: Verdicts, m': Verdicts, id: string)
    requires id in w.graph
    requires forall d :: d in w.graph[id].deps ==> (d in m <==> d in m') && (d in m ==> m[d] == m'[d])
    ensures VerdictOf(w, m, id) == VerdictOf(w, m', id)
  {
    var names := w.graph[id].deps;
    assert AllEnded(m, names) <==> AllEnded(m', names);
    if AllEnded(m, names) {
      assert EndedOutcomes(m, names) == EndedOutcomes(m', names);
    }
  }

  /** An acyclic graph has one evaluation. */
  lemma {:induction false} EvaluationIsUniqueUpTo(w: Workload, m: Verdicts, m': Verdicts, n: nat)
    requires Valid(w) && Solves(w, m) && Solves(w, m') && n <= |w.order|
    ensures forall k :: 0 <= k < n ==> SameVerdict(m, m', w.order[k])
  {
    if n > 0 {
      EvaluationIsUniqueUpTo(w, m, m', n - 1);
      NextVerdictSame(w, m, m', n - 1);
    }
  }

  predicate SameVerdict(m: Verdicts, m': Verdicts, id: string) {
    id in m && id in m' && m[id] == m'[id]
  }

  lemma NextVerdictSame(w: Workload, m: Verdicts, m': Verdicts, n: nat)
    requires Valid(w) && Solves(w, m) && Solves(w, m') && n < |w.order|
    requires forall k :: 0 <= k < n ==> SameVerdict(m, m', w.order[k])
    ensures SameVerdict(m, m', w.order[n])
  {
    var id := w.order[n];
    forall d | d in w.graph[id].deps ensures SameVerdict(m, m', d) {
      assert Dag.FollowsDependencies(w.graph, w.order, n);
      assert d in w.order[..n];
      var k :| 0 <= k < n && w.order[k] == d;
    }
    VerdictDependsOnDependencies(w, m, m', id);
    assert m[id] == VerdictOf(w, m, id) && m'[id] == VerdictOf(w, m', id);
  }

  lemma EvaluationIsUnique(w: Workload, m: Verdicts, m': Verdicts)
    requires Valid(w) && Solves(w, m) && Solves(w, m')
    ensures m == m'
  {
    EvaluationIsUniqueUpTo(w, m, m', |w.order|);
    forall id | id in w.graph ensures m[id] == m'[id] {
      assert id in Elements(w.order);
      var k :| 0 <= k < |w.order| && w.order[k] == id;
      assert SameVerdict(m, m', w.order[k]);
    }
  }

  /** Evaluation along the order, one task at a time. */
  function EvaluatePrefix(w: Workload, n: nat): Verdicts
    requires n <= |w.order| && forall k :: 0 <= k < |w.order| ==> w.order[k] in w.graph
  {
    if n == 0 then map[]
    else
      var m := EvaluatePrefix(w, n - 1);
      m[w.order[n - 1] := VerdictOf(w, m, w.order[n - 1])]
  }

  lemma {:induction false} PrefixKeys(w: Workload, n: nat)
    requires Valid(w) && n <= |w.order|
    ensures EvaluatePrefix(w, n).Keys == Elements(w.order[..n])
  {
    if n > 0 {
      PrefixKeys(w, n - 1);
      assert w.order[..n] == w.order[..n - 1] + [w.order[n - 1]];
    }
  }

  lemma EarlierThanLast(w: Workload, k: nat, n: nat, d: string)
    requires Valid(w) && k < n <= |w.order| && d in w.graph[w.order[k]].deps
    ensures d in w.order[..n - 1] && d != w.order[n - 1]
  {
    assert Dag.FollowsDependencies(w.graph, w.order, k);
    assert d in w.order[..k];
    var i :| 0 <= i < k && w.order[i] == d;
    assert w.order[..n - 1][i] == d;
    assert Differ(w.order, i, n - 1);
  }

  lemma {:induction false} PrefixSolves(w: Workload, n: nat, k: nat)
    requires Valid(w) && k < n <= |w.order|
    ensures w.order[k] in EvaluatePrefix(w, n)
    ensures EvaluatePrefix(w, n)[w.order[k]] == VerdictOf(w, EvaluatePrefix(w, n), w.order[k])
    decreases n
  {
    var m, m' := EvaluatePrefix(w, n - 1), EvaluatePrefix(w, n);
    PrefixKeys(w, n - 1);
    forall d | d in w.graph[w.order[k]].deps ensures d in m && d in m' && m'[d] == m[d] {
      EarlierThanLast(w, k, n, d);
    }
    VerdictDependsOnDependencies(w, m, m', w.order[k]);
    if k < n - 1 {
      PrefixSolves(w, n - 1, k);
      assert Differ(w.order, k, n - 1);
    }
  }

  /** An acyclic graph has an evaluation. */
  lemma EvaluationExists(w: Workload) returns (m: Verdicts)
    requires Valid(w)
    ensures Solves(w, m)
  {
    m := EvaluatePrefix(w, |w.order|);
    PrefixKeys(w, |w.order|);
    assert w.order[..|w.order|] == w.order;
    forall id | id in w.graph ensures m[id] == VerdictOf(w, m, id) {
      assert id in Elements(w.order);
      var k :| 0 <= k < |w.order| && w.order[k] == id;
      PrefixSolves(w, |w.order|, k);
    }
  }
}
