/** Task graphs: the stable topological order, the cycle search, and the level peeling that
    the reducer runs on a planned graph (dag.py and the end of `_planned_tasks` in reducer.py). */
module Dag {
  import opened Common

  /** The controller-owned policy of one microtask, as far as execution depends on it. */
  datatype Task = Task(
    id: string,
    agent: string,
    deps: seq<string>,
    required: bool,
    allowFailed: bool,
    tools: seq<string>,
    maxTurns: nat,
    maxToolCalls: nat,
    maxCallsPerTurn: nat,
    repairBudget: nat)

  type Graph = map<string, Task>

  /** What the constructors check about names before a graph is ordered. */
  predicate WellFormed(ts: seq<Task>) {
    && Unique(Names(ts))
    && (forall i :: 0 <= i < |ts| ==> KnownDependencies(ts, ts[i].deps))
  }

  predicate KnownDependencies(ts: seq<Task>, deps: seq<string>) {
    Unique(deps) && Elements(deps) <= Elements(Names(ts))
  }

  function Names(ts: seq<Task>): (names: seq<string>)
    ensures |names| == |ts| && forall p :: 0 <= p < |ts| ==> names[p] == ts[p].id
  {
    seq(|ts|, p requires 0 <= p < |ts| => ts[p].id)
  }

  /** `{task.task_id: position}` */
  function Positions(names: seq<string>): (index: map<string, nat>) {
    map id | id in names :: Position(names, id)
  }

  /** `tasks_by_id` */
  function TasksById(ts: seq<Task>): (g: Graph)
    requires WellFormed(ts)
    ensures Closed(g) && DistinctDependencies(g)
    ensures g.Keys == Elements(Names(ts))
    ensures forall p :: 0 <= p < |ts| ==> ts[p].id in g && g[ts[p].id] == ts[p]
  {
    var names := Names(ts);
    var g := map id | id in names :: ts[Position(names, id)];
    assert Closed(g) && DistinctDependencies(g) by {
      forall id | id in g
        ensures g[id].id == id && Unique(g[id].deps) && forall d :: d in g[id].deps ==> d in g
      {
        assert KnownDependencies(ts, ts[Position(names, id)].deps);
        forall d | d in g[id].deps ensures d in g { assert d in Elements(g[id].deps); }
      }
    }
    assert forall p :: 0 <= p < |ts| ==> ts[p].id in g && g[ts[p].id] == ts[p] by {
      forall p | 0 <= p < |ts| ensures ts[p].id in g && g[ts[p].id] == ts[p] {
        assert names[p] == ts[p].id;
        SamePlace(names, Position(names, names[p]), p);
      }
    }
    g
  }

  ghost predicate Closed(g: Graph) {
    forall id :: id in g ==> g[id].id == id && forall d :: d in g[id].deps ==> d in g
  }

  ghost predicate DistinctDependencies(g: Graph) {
    forall id :: id in g ==> Unique(g[id].deps)
  }

  /** The declaration list, its index and the graph describe the same tasks. */
  ghost predicate Declared(g: Graph, names: seq<string>, index: map<string, nat>) {
    && Closed(g) && DistinctDependencies(g) && index.Keys == g.Keys && Unique(names)
    && (forall p :: 0 <= p < |names| ==> names[p] in g && index[names[p]] == p)
    && (forall id :: id in g ==> index[id] < |names| && names[index[id]] == id)
  }

  lemma DeclaredTasks(ts: seq<Task>)
    requires WellFormed(ts)
    ensures Declared(TasksById(ts), Names(ts), Positions(Names(ts)))
  {
    var names := Names(ts);
    assert Elements(names) == Positions(names).Keys;
    forall p | 0 <= p < |names| ensures Position(names, names[p]) == p {
      SamePlace(names, Position(names, names[p]), p);
    }
  }

  // ---------- Orders, readiness and cycles ----------

  ghost predicate RespectsDependencies(g: Graph, o: seq<string>) {
    && Unique(o)
    && forall k :: 0 <= k < |o| ==> FollowsDependencies(g, o, k)
  }

  ghost predicate FollowsDependencies(g: Graph, o: seq<string>, k: int)
    requires 0 <= k < |o|
  {
    o[k] in g && forall d :: d in g[o[k]].deps ==> d in o[..k]
  }

  ghost predicate TopologicalOrder(g: Graph, o: seq<string>) {
    RespectsDependencies(g, o) && Elements(o) == g.Keys
  }

  predicate Ready(g: Graph, done: set<string>, id: string) {
    id in g && id !in done && forall d :: d in g[id].deps ==> d in done
  }

  ghost predicate NoneReady(g: Graph, done: set<string>) {
    forall id :: !Ready(g, done, id)
  }

  /** A closed walk along real dependency edges, first node repeated at the end. */
  ghost predicate IsCycle(g: Graph, c: seq<string>) {
    && |c| >= 2
    && c[0] == c[|c| - 1]
    && IsPath(g, c)
  }

  ghost predicate IsPath(g: Graph, p: seq<string>) {
    forall i :: 0 <= i < |p| - 1 ==> p[i] in g && p[i + 1] in g[p[i]].deps
  }

  ghost predicate Acyclic(g: Graph) {
    forall c :: !IsCycle(g, c)
  }

  ghost predicate Waits(g: Graph, r: set<string>, id: string) {
    id in g && exists d :: d in g[id].deps && d in r
  }

  /** Every node of a non-empty stuck set still waits for a node of the set. */
  ghost predicate Stuck(g: Graph, r: set<string>) {
    r != {} && r <= g.Keys && forall id {:trigger Waits(g, r, id)} :: id in r ==> Waits(g, r, id)
  }

  lemma {:induction false} StuckWalk(g: Graph, r: set<string>, p: seq<string>) returns (c: seq<string>)
    requires Stuck(g, r)
    requires |p| > 0 && IsPath(g, p) && Elements(p) <= r
    ensures IsCycle(g, c)
    decreases r - Elements(p)
  {
    var last := p[|p| - 1];
    assert Waits(g, r, last);
    var d :| d in g[last].deps && d in r;
    if d in p {
      var i :| 0 <= i < |p| && p[i] == d;
      c := p[i..] + [d];
    } else {
      assert Elements(p + [d]) == Elements(p) + {d};
      assert d in r - Elements(p);
      c := StuckWalk(g, r, p + [d]);
    }
  }

  lemma StuckIsCyclic(g: Graph, r: set<string>)
    requires Stuck(g, r)
    ensures !Acyclic(g)
  {
    var id :| id in r;
    var c := StuckWalk(g, r, [id]);
  }

  lemma {:induction false} CycleHasNoOrder(g: Graph, o: seq<string>, c: seq<string>, i: nat, k: nat)
    requires TopologicalOrder(g, o) && IsCycle(g, c)
    requires i < |c| && k < |o| && o[k] == c[i]
    ensures false
    decreases k
  {
    // Follow the walk forward: each edge leads to a strictly earlier place in the order.
    var j := if i == |c| - 1 then 0 else i;
    assert c[j] == o[k] && c[j + 1] in g[c[j]].deps && FollowsDependencies(g, o, k);
    var k' :| 0 <= k' < k && o[k'] == c[j + 1];
    CycleHasNoOrder(g, o, c, j + 1, k');
  }

  lemma OrderedIsAcyclic(g: Graph, o: seq<string>)
    requires TopologicalOrder(g, o)
    ensures Acyclic(g)
  {
    forall c ensures !IsCycle(g, c) {
      if IsCycle(g, c) {
        assert c[0] in Elements(o);
        var k :| 0 <= k < |o| && o[k] == c[0];
        CycleHasNoOrder(g, o, c, 0, k);
      }
    }
  }

  /** What is left when nothing is ready is stuck. */
  lemma NothingReadyIsStuck(g: Graph, done: set<string>)
    requires Closed(g) && done <= g.Keys && done != g.Keys
    requires NoneReady(g, done)
    ensures Stuck(g, g.Keys - done)
  {
    var r := g.Keys - done;
    assert done + r == g.Keys;
    forall id | id in r ensures Waits(g, r, id) {
      assert !Ready(g, done, id);
      var d :| d in g[id].deps && d !in done;
      assert d in r;
    }
  }

  // ---------- The greedy order ----------

  /** Place k of a greedy order holds the ready task declared first. */
  ghost predicate GreedyAt(g: Graph, index: map<string, nat>, o: seq<string>, k: nat)
    requires k < |o|
  {
    && Ready(g, Elements(o[..k]), o[k])
    && forall id {:trigger Ready(g, Elements(o[..k]), id)} ::
      Ready(g, Elements(o[..k]), id) && id in index && o[k] in index ==> index[o[k]] <= index[id]
  }

  ghost predicate Greedy(g: Graph, index: map<string, nat>, o: seq<string>) {
    forall k :: 0 <= k < |o| ==> GreedyAt(g, index, o, k)
  }

  lemma GreedyRespects(g: Graph, index: map<string, nat>, o: seq<string>)
    requires Greedy(g, index, o)
    ensures RespectsDependencies(g, o)
  {
    forall i, j | 0 <= i < j < |o| ensures Differ(o, i, j) {
      assert GreedyAt(g, index, o, j);
      assert o[..j][i] == o[i];
    }
    forall k | 0 <= k < |o| ensures FollowsDependencies(g, o, k) {
      assert GreedyAt(g, index, o, k);
    }
  }

  /** `a` comes no later than `b` when orders are compared by declaration position. */
  ghost predicate LexicographicallyAtMost(index: map<string, nat>, a: seq<string>, b: seq<string>) {
    || a == b
    || exists k :: FirstDifference(index, a, b, k)
  }

  ghost predicate FirstDifference(index: map<string, nat>, a: seq<string>, b: seq<string>, k: int) {
    && 0 <= k < |a| && k < |b|
    && a[..k] == b[..k]
    && a[k] in index && b[k] in index && index[a[k]] < index[b[k]]
  }

  /** The greedy order is the least of all the orders that respect the dependencies. */
  lemma GreedyIsLeast(g: Graph, names: seq<string>, index: map<string, nat>, o: seq<string>, other: seq<string>)
    requires Declared(g, names, index)
    requires Greedy(g, index, o) && TopologicalOrder(g, o) && TopologicalOrder(g, other)
    ensures LexicographicallyAtMost(index, o, other)
  {
    UniqueLength(o);
    UniqueLength(other);
    GreedyIsLeastFrom(g, names, index, o, other, 0);
  }

  lemma {:induction false} GreedyIsLeastFrom(
      g: Graph, names: seq<string>, index: map<string, nat>, o: seq<string>, other: seq<string>, k: nat)
    requires Declared(g, names, index)
    requires Greedy(g, index, o) && RespectsDependencies(g, other)
    requires k <= |o| == |other| && o[..k] == other[..k]
    ensures LexicographicallyAtMost(index, o, other)
    decreases |o| - k
  {
    if k == |o| {
      assert o == o[..k] && other == other[..k];
    } else {
      assert GreedyAt(g, index, o, k);
      UniquePrefix(other, k);
      assert FollowsDependencies(g, other, k);
      assert Ready(g, Elements(o[..k]), other[k]);
      if index[o[k]] == index[other[k]] {
        assert o[..k + 1] == o[..k] + [o[k]] && other[..k + 1] == other[..k] + [other[k]];
        GreedyIsLeastFrom(g, names, index, o, other, k + 1);
      } else {
        assert FirstDifference(index, o, other, k);
      }
    }
  }

  // ---------- Kahn's algorithm ----------

  /** How many of the dependencies are not ordered yet: what `indegree` counts. */
  function Remaining(deps: seq<string>, done: set<string>): nat {
    if deps == [] then 0
    else Remaining(deps[..|deps| - 1], done) + (if deps[|deps| - 1] in done then 0 else 1)
  }

  lemma {:induction false} RemainingStep(deps: seq<string>, done: set<string>, x: string)
    requires Unique(deps) && x !in done
    ensures Remaining(deps, done + {x}) == Remaining(deps, done) - (if x in deps then 1 else 0)
  {
    if deps != [] {
      assert deps == deps[..|deps| - 1] + [deps[|deps| - 1]];
      UniquePrefix(deps, |deps| - 1);
      RemainingStep(deps[..|deps| - 1], done, x);
    }
  }

  lemma {:induction false} NoneRemaining(deps: seq<string>, done: set<string>)
    ensures Remaining(deps, done) == 0 <==> forall d :: d in deps ==> d in done
    ensures done == {} ==> Remaining(deps, done) == |deps|
  {
    if deps != [] {
      assert deps == deps[..|deps| - 1] + [deps[|deps| - 1]];
      NoneRemaining(deps[..|deps| - 1], done);
    }
  }

  /** The smallest entry of a non-empty heap of declaration positions. */
  method PopLeast(heap: set<nat>) returns (least: nat, rest: set<nat>)
    requires heap != {}
    ensures heap == rest + {least} && least !in rest
    ensures forall p :: p in heap ==> least <= p
  {
    least :| least in heap;
    rest := heap - {least};
    var left := rest;
    while left != {}
      invariant left <= heap && least in heap
      invariant forall p :: p in heap && p !in left ==> least <= p
      decreases left
    {
      var p :| p in left;
      left := left - {p};
      if p < least { least := p; }
    }
    rest := heap - {least};
  }

  /** Who among the first n tasks names x, in declaration order. */
  function DependentsOf(g: Graph, names: seq<string>, x: string, n: nat): seq<string>
    requires n <= |names| && forall p :: 0 <= p < |names| ==> names[p] in g
  {
    if n == 0 then []
    else DependentsOf(g, names, x, n - 1) + (if x in g[names[n - 1]].deps then [names[n - 1]] else [])
  }

  lemma {:induction false} DependentsAreExact(g: Graph, names: seq<string>, index: map<string, nat>, x: string, n: nat)
    requires Declared(g, names, index) && n <= |names|
    ensures Unique(DependentsOf(g, names, x, n))
    ensures forall id :: id in DependentsOf(g, names, x, n) <==> id in g && index[id] < n && x in g[id].deps
  {
    if n > 0 {
      DependentsAreExact(g, names, index, x, n - 1);
      var before := DependentsOf(g, names, x, n - 1);
      assert index[names[n - 1]] == n - 1 && names[n - 1] !in before;
      if x in g[names[n - 1]].deps {
        UniqueAppend(before, names[n - 1]);
      } else {
        assert DependentsOf(g, names, x, n) == before;
      }
    }
  }

  /** Registers one task with each of its dependencies. */
  method Register(deps: seq<string>, name: string, dependents: map<string, seq<string>>)
    returns (dependents': map<string, seq<string>>)
    requires Unique(deps) && Elements(deps) <= dependents.Keys
    ensures dependents'.Keys == dependents.Keys
    ensures forall x :: x in dependents ==> dependents'[x] == dependents[x] + (if x in deps then [name] else [])
  {
    dependents' := dependents;
    for j := 0 to |deps|
      invariant dependents'.Keys == dependents.Keys
      invariant forall x :: x in dependents ==>
        dependents'[x] == dependents[x] + (if x in deps[..j] then [name] else [])
    {
      UniquePrefix(deps, j);
      assert deps[..j + 1] == deps[..j] + [deps[j]] && deps[j] !in deps[..j] && deps[j] in Elements(deps);
      dependents' := dependents'[deps[j] := dependents'[deps[j]] + [name]];
    }
    assert deps[..|deps|] == deps;
  }

  /** `dependents`: for each task, the tasks that name it. */
  method Dependents(g: Graph, names: seq<string>, ghost index: map<string, nat>)
    returns (dependents: map<string, seq<string>>)
    requires Declared(g, names, index)
    ensures dependents.Keys == g.Keys
    ensures forall x :: x in dependents ==> dependents[x] == DependentsOf(g, names, x, |names|)
  {
    dependents := map id | id in g :: [];
    for i := 0 to |names|
      invariant dependents.Keys == g.Keys
      invariant forall x :: x in dependents ==> dependents[x] == DependentsOf(g, names, x, i)
    {
      assert Elements(g[names[i]].deps) <= g.Keys;
      dependents := Register(g[names[i]].deps, names[i], dependents);
    }
  }

  /** How appending `id` changes readiness: only its dependents can become ready. */
  lemma ReadyAfter(g: Graph, index: map<string, nat>, ordered: seq<string>, id: string, x: string)
    requires Closed(g) && Greedy(g, index, ordered)
    requires Ready(g, Elements(ordered), id) && x in g
    ensures var before := Elements(ordered);
      Ready(g, before + {id}, x) <==>
      (x != id && Ready(g, before, x)) || (id in g[x].deps && Remaining(g[x].deps, before + {id}) == 0)
  {
    var before := Elements(ordered);
    NoneRemaining(g[x].deps, before + {id});
    GreedyRespects(g, index, ordered);
    if x in before {
      var k :| 0 <= k < |ordered| && ordered[k] == x;
      assert FollowsDependencies(g, ordered, k);
      forall d | d in g[x].deps ensures d in before { assert d in ordered[..k]; }
    }
  }

  ghost predicate KahnInvariant(
      g: Graph, names: seq<string>, index: map<string, nat>,
      ordered: seq<string>, ready: set<nat>, indegree: map<string, nat>)
  {
    && Declared(g, names, index)
    && Greedy(g, index, ordered) && Elements(ordered) <= g.Keys
    && indegree.Keys == g.Keys
    && (forall x :: x in g ==> indegree[x] == Remaining(g[x].deps, Elements(ordered)))
    && (forall p :: p in ready ==> p < |names|)
    && ReadyExactly(g, index, Elements(ordered), ready)
  }

  ghost predicate ReadyExactly(g: Graph, index: map<string, nat>, done: set<string>, ready: set<nat>)
    requires index.Keys == g.Keys
  {
    forall x {:trigger ReadyMatches(g, index, done, ready, x)} :: x in g ==> ReadyMatches(g, index, done, ready, x)
  }

  ghost predicate ReadyMatches(g: Graph, index: map<string, nat>, done: set<string>, ready: set<nat>, x: string)
    requires index.Keys == g.Keys
  {
    x in g && (index[x] in ready <==> Ready(g, done, x))
  }

  lemma GreedyExtends(g: Graph, index: map<string, nat>, o: seq<string>, id: string)
    requires Greedy(g, index, o) && GreedyAt(g, index, o + [id], |o|)
    ensures Greedy(g, index, o + [id])
  {
    forall k | 0 <= k < |o| ensures GreedyAt(g, index, o + [id], k) {
      assert GreedyAt(g, index, o, k) && (o + [id])[..k] == o[..k];
    }
  }

  lemma PoppedIsGreedy(
      g: Graph, names: seq<string>, index: map<string, nat>,
      ordered: seq<string>, p: nat, rest: set<nat>, indegree: map<string, nat>)
    requires p < |names| && KahnInvariant(g, names, index, ordered, rest + {p}, indegree)
    requires forall q :: q in rest ==> p <= q
    ensures GreedyAt(g, index, ordered + [names[p]], |ordered|)
  {
    var done := Elements(ordered);
    assert (ordered + [names[p]])[..|ordered|] == ordered;
    assert ReadyMatches(g, index, done, rest + {p}, names[p]);
    forall id | Ready(g, done, id) ensures p <= index[id] {
      assert ReadyMatches(g, index, done, rest + {p}, id);
    }
  }

  /** The inner loop: one decrement for each dependent, and a push when it reaches zero. */
  method ReleaseDependents(
      index: map<string, nat>, dependents: seq<string>, ready: set<nat>, indegree: map<string, nat>)
    returns (ready': set<nat>, indegree': map<string, nat>)
    requires Unique(dependents) && index.Keys == indegree.Keys
    requires forall d :: d in dependents ==> d in indegree && indegree[d] > 0
    ensures indegree'.Keys == indegree.Keys
    ensures forall x :: x in indegree ==> indegree'[x] == indegree[x] - (if x in dependents then 1 else 0)
    ensures forall p :: p in ready' <==>
      p in ready || exists d :: d in dependents && index[d] == p && indegree[d] == 1
  {
    ready', indegree' := ready, indegree;
    for j := 0 to |dependents|
      invariant indegree'.Keys == indegree.Keys
      invariant forall x :: x in indegree ==>
        indegree'[x] == indegree[x] - (if x in dependents[..j] then 1 else 0)
      invariant forall p :: p in ready' <==>
        p in ready || exists d :: d in dependents[..j] && index[d] == p && indegree[d] == 1
    {
      var d := dependents[j];
      UniquePrefix(dependents, j);
      assert d in dependents && d !in dependents[..j];
      assert dependents[..j + 1] == dependents[..j] + [d];
      indegree' := indegree'[d := indegree'[d] - 1];
      if indegree'[d] == 0 {
        ready' := ready' + {index[d]};
      }
    }
    assert dependents[..|dependents|] == dependents;
  }

  /** One turn of Kahn's loop: order the popped task and release its dependents. */
  method AppendReady(
      g: Graph, names: seq<string>, index: map<string, nat>, dependents: seq<string>,
      ordered: seq<string>, p: nat, rest: set<nat>, indegree: map<string, nat>)
    returns (ordered': seq<string>, ready': set<nat>, indegree': map<string, nat>)
    requires p !in rest && KahnInvariant(g, names, index, ordered, rest + {p}, indegree)
    requires forall q :: q in rest ==> p <= q
    requires dependents == DependentsOf(g, names, names[p], |names|)
    ensures ordered' == ordered + [names[p]] && names[p] !in ordered
    ensures KahnInvariant(g, names, index, ordered', ready', indegree')
  {
    ordered' := ordered + [names[p]];
    DependentsAreExact(g, names, index, names[p], |names|);
    DependentsWait(g, names, index, ordered, p, rest, indegree);
    PoppedIsGreedy(g, names, index, ordered, p, rest, indegree);
    GreedyExtends(g, index, ordered, names[p]);
    ready', indegree' := ReleaseDependents(index, dependents, rest, indegree);
    ReleasedExactly(g, names, index, dependents, ordered, p, rest, indegree, ready');
  }

  lemma DependentsWait(
      g: Graph, names: seq<string>, index: map<string, nat>,
      ordered: seq<string>, p: nat, rest: set<nat>, indegree: map<string, nat>)
    requires p < |names| && KahnInvariant(g, names, index, ordered, rest + {p}, indegree)
    ensures names[p] !in ordered && Ready(g, Elements(ordered), names[p])
    ensures Elements(ordered + [names[p]]) == Elements(ordered) + {names[p]}
    ensures forall x :: x in g && names[p] in g[x].deps ==> indegree[x] > 0
    ensures forall x :: x in g ==>
      indegree[x] - (if names[p] in g[x].deps then 1 else 0) == Remaining(g[x].deps, Elements(ordered + [names[p]]))
  {
    var id, before := names[p], Elements(ordered);
    assert ReadyMatches(g, index, before, rest + {p}, id);
    assert Elements(ordered + [id]) == before + {id};
    forall x | x in g
      ensures id in g[x].deps ==> indegree[x] > 0
      ensures indegree[x] - (if id in g[x].deps then 1 else 0) == Remaining(g[x].deps, Elements(ordered + [id]))
    {
      RemainingStep(g[x].deps, before, id);
    }
  }

  lemma ReleasedExactly(
      g: Graph, names: seq<string>, index: map<string, nat>, dependents: seq<string>,
      ordered: seq<string>, p: nat, rest: set<nat>, indegree: map<string, nat>, ready: set<nat>)
    requires p < |names| && p !in rest && KahnInvariant(g, names, index, ordered, rest + {p}, indegree)
    requires forall x :: x in dependents <==> x in g && names[p] in g[x].deps
    requires forall q :: q in ready <==>
      q in rest || exists d :: d in dependents && index[d] == q && indegree[d] == 1
    ensures ReadyExactly(g, index, Elements(ordered + [names[p]]), ready)
    ensures forall q :: q in ready ==> q < |names|
  {
    var id, before := names[p], Elements(ordered);
    DependentsWait(g, names, index, ordered, p, rest, indegree);
    forall x | x in g ensures ReadyMatches(g, index, before + {id}, ready, x) {
      assert ReadyMatches(g, index, before, rest + {p}, x);
      ReadyAfter(g, index, ordered, id, x);
      assert index[x] == p <==> x == id;
      assert index[x] in ready <==> index[x] in rest || (x in dependents && indegree[x] == 1) by {
        if d :| d in dependents && index[d] == index[x] && indegree[d] == 1 { assert d == x; }
      }
    }
  }

  lemma KahnStarts(g: Graph, names: seq<string>, index: map<string, nat>, ready: set<nat>, indegree: map<string, nat>)
    requires Declared(g, names, index)
    requires indegree == map id | id in g :: |g[id].deps|
    requires ready == set p: nat | p < |names| && indegree[names[p]] == 0
    ensures KahnInvariant(g, names, index, [], ready, indegree)
  {
    assert Elements<string>([]) == {};
    forall x | x in g
      ensures indegree[x] == Remaining(g[x].deps, {})
      ensures ReadyMatches(g, index, {}, ready, x)
    {
      NoneRemaining(g[x].deps, {});
    }
  }

  lemma NamesAreKeys(g: Graph, names: seq<string>, index: map<string, nat>)
    requires Declared(g, names, index)
    ensures Elements(names) == g.Keys && |names| == |g.Keys|
  {
    UniqueLength(names);
    forall x | x in g ensures x in names { assert names[index[x]] == x; }
  }

  lemma KahnStops(
      g: Graph, names: seq<string>, index: map<string, nat>, ordered: seq<string>, indegree: map<string, nat>)
    requires KahnInvariant(g, names, index, ordered, {}, indegree)
    ensures |ordered| == |names| <==> Acyclic(g)
    ensures |ordered| == |names| ==> TopologicalOrder(g, ordered)
  {
    GreedyRespects(g, index, ordered);
    UniqueLength(ordered);
    NamesAreKeys(g, names, index);
    SubsetSize(Elements(ordered), g.Keys);
    if |ordered| == |names| {
      OrderedIsAcyclic(g, ordered);
    } else {
      assert NoneReady(g, Elements(ordered)) by {
        forall x ensures !Ready(g, Elements(ordered), x) {
          if x in g { assert ReadyMatches(g, index, Elements(ordered), {}, x); }
        }
      }
      NothingReadyIsStuck(g, Elements(ordered));
      StuckIsCyclic(g, g.Keys - Elements(ordered));
    }
  }

  /** `while ready` */
  method DrainReady(g: Graph, names: seq<string>, index: map<string, nat>)
    returns (ordered: seq<string>, indegree: map<string, nat>)
    requires Declared(g, names, index)
    ensures KahnInvariant(g, names, index, ordered, {}, indegree)
  {
    var dependents := Dependents(g, names, index);
    indegree := map id | id in g :: |g[id].deps|;
    var ready := set p: nat | p < |names| && indegree[names[p]] == 0;
    ordered := [];
    KahnStarts(g, names, index, ready, indegree);
    while ready != {}
      invariant KahnInvariant(g, names, index, ordered, ready, indegree)
      decreases |names| - |ordered|
    {
      var p, rest := PopLeast(ready);
      OrderedIsShort(g, names, index, ordered, ready, indegree);
      ordered, ready, indegree := AppendReady(g, names, index, dependents[names[p]], ordered, p, rest, indegree);
    }
  }

  lemma OrderedIsShort(
      g: Graph, names: seq<string>, index: map<string, nat>,
      ordered: seq<string>, ready: set<nat>, indegree: map<string, nat>)
    requires KahnInvariant(g, names, index, ordered, ready, indegree)
    ensures |ordered| <= |names|
  {
    GreedyRespects(g, index, ordered);
    UniqueLength(ordered);
    NamesAreKeys(g, names, index);
    SubsetSize(Elements(ordered), g.Keys);
  }

  /** Kahn's loop over a declared graph; an undrained graph is reported with one of its cycles. */
  method OrderDeclared(g: Graph, names: seq<string>, index: map<string, nat>)
    returns (r: Result<seq<string>, seq<string>>)
    requires Declared(g, names, index)
    ensures r.Ok? <==> Acyclic(g)
    ensures r.Ok? ==> TopologicalOrder(g, r.value) && Greedy(g, index, r.value)
    ensures r.Err? ==> IsCycle(g, r.error)
  {
    var ordered, indegree := DrainReady(g, names, index);
    KahnStops(g, names, index, ordered, indegree);
    if |ordered| == |names| {
      return Ok(ordered);
    }
    var cycle := FindCycle(g, names, index);
    r := Err(cycle);
  }

  method StableTopologicalIds(ts: seq<Task>) returns (r: Result<seq<string>, seq<string>>)
    requires WellFormed(ts)
    ensures r.Ok? <==> Acyclic(TasksById(ts))
    ensures r.Ok? ==> TopologicalOrder(TasksById(ts), r.value)
    ensures r.Ok? ==> forall other :: TopologicalOrder(TasksById(ts), other) ==>
      LexicographicallyAtMost(Positions(Names(ts)), r.value, other)
    ensures r.Err? ==> IsCycle(TasksById(ts), r.error)
  {
    var g, names := TasksById(ts), Names(ts);
    var index := Positions(names);
    DeclaredTasks(ts);
    r := OrderDeclared(g, names, index);
    if r.Ok? {
      forall other | TopologicalOrder(g, other) ensures LexicographicallyAtMost(index, r.value, other) {
        GreedyIsLeast(g, names, index, r.value, other);
      }
    }
  }

  // ---------- The cycle search ----------

  /** `state` 1 marks the nodes on the stack, 2 the finished ones; `finished` lists the latter in
      the order they were left, which respects the dependencies. */
  ghost predicate SearchInvariant(g: Graph, state: map<string, int>, stack: seq<string>, finished: seq<string>) {
    && state.Keys <= g.Keys
    && (forall x :: x in state ==> state[x] == 1 || state[x] == 2)
    && (forall x :: x in stack <==> x in state && state[x] == 1)
    && (forall x :: x in finished <==> x in state && state[x] == 2)
    && Unique(stack) && IsPath(g, stack)
    && RespectsDependencies(g, finished)
  }

  lemma Entered(g: Graph, id: string, state: map<string, int>, stack: seq<string>, finished: seq<string>)
    requires SearchInvariant(g, state, stack, finished) && id in g && id !in state
    requires stack != [] ==> id in g[stack[|stack| - 1]].deps
    ensures SearchInvariant(g, state[id := 1], stack + [id], finished)
  {
    UniqueAppend(stack, id);
  }

  lemma Left(g: Graph, id: string, state: map<string, int>, stack: seq<string>, finished: seq<string>)
    requires SearchInvariant(g, state, stack + [id], finished)
    requires id in g && forall d :: d in g[id].deps ==> d in state && state[d] == 2
    ensures SearchInvariant(g, state[id := 2], stack, finished + [id])
  {
    var longer := stack + [id];
    assert longer[|stack|] == id && longer[..|stack|] == stack && id in longer;
    forall i | 0 <= i < |stack| - 1 ensures stack[i] in g && stack[i + 1] in g[stack[i]].deps {
      assert longer[i] == stack[i] && longer[i + 1] == stack[i + 1];
    }
    UniquePrefix(longer, |stack|);
    UniqueAppend(finished, id);
    forall x ensures x in finished + [id] <==> x in state[id := 2] && state[id := 2][x] == 2 { }
    forall x ensures x in stack <==> x in state[id := 2] && state[id := 2][x] == 1 {
      assert x in longer <==> x in stack || x == id;
    }
    assert RespectsDependencies(g, finished + [id]) by {
      forall k | 0 <= k < |finished + [id]|
        ensures FollowsDependencies(g, finished + [id], k)
      {
        if k < |finished| { assert FollowsDependencies(g, finished, k); }
        assert (finished + [id])[..k] == finished[..k];
        assert finished[..|finished|] == finished;
      }
    }
  }

  lemma ClosesCycle(g: Graph, stack: seq<string>, start: nat)
    requires IsPath(g, stack) && start < |stack| && stack[|stack| - 1] in g
    requires stack[start] in g[stack[|stack| - 1]].deps
    ensures IsCycle(g, stack[start..] + [stack[start]])
  {
  }

  /** `stack[stack.index(dependency):] + [dependency]` */
  method CycleFrom(g: Graph, stack: seq<string>, d: string) returns (cycle: seq<string>)
    requires IsPath(g, stack) && d in stack && stack[|stack| - 1] in g && d in g[stack[|stack| - 1]].deps
    ensures IsCycle(g, cycle)
  {
    var start :| 0 <= start < |stack| && stack[start] == d;
    ClosesCycle(g, stack, start);
    cycle := stack[start..] + [d];
  }

  lemma FewerLeft(g: Graph, id: string, state: map<string, int>, state': map<string, int>)
    requires id in g && id !in state && Extends(state[id := 1], state')
    ensures g.Keys - state'.Keys < g.Keys - state.Keys
  {
    assert id in g.Keys - state.Keys && id in state';
    forall x | x in state ensures x in state' { assert x in state[id := 1]; }
  }

  method Visit(g: Graph, id: string, state: map<string, int>, stack: seq<string>, ghost finished: seq<string>)
    returns (cycle: seq<string>, state': map<string, int>, stack': seq<string>, ghost finished': seq<string>)
    requires Closed(g) && SearchInvariant(g, state, stack, finished)
    requires id in g && id !in state
    requires stack != [] ==> id in g[stack[|stack| - 1]].deps
    ensures cycle != [] ==> IsCycle(g, cycle)
    ensures cycle == [] ==> SearchInvariant(g, state', stack', finished') && stack' == stack
    ensures cycle == [] ==> Extends(state, state') && id in state' && state'[id] == 2
    decreases g.Keys - state.Keys
  {
    Entered(g, id, state, stack, finished);
    state', stack', finished' := state[id := 1], stack + [id], finished;
    var deps := g[id].deps;
    for i := 0 to |deps|
      invariant SearchInvariant(g, state', stack', finished') && stack' == stack + [id]
      invariant Extends(state[id := 1], state')
      invariant forall k :: 0 <= k < i ==> deps[k] in state' && state'[deps[k]] == 2
    {
      var d := deps[i];
      assert d in g;
      if d !in state' {
        FewerLeft(g, id, state, state');
        cycle, state', stack', finished' := Visit(g, d, state', stack', finished');
        if cycle != [] { return; }
      } else if state'[d] == 1 {
        cycle := CycleFrom(g, stack', d);
        return;
      }
    }
    Left(g, id, state', stack, finished');
    cycle, stack', state' := [], stack, state'[id := 2];
    finished' := finished' + [id];
  }

  /** Finished nodes stay finished and nodes on the stack stay on it. */
  ghost predicate Extends(state: map<string, int>, state': map<string, int>) {
    forall x :: x in state ==> x in state' && state'[x] == state[x]
  }

  lemma AllFinished(g: Graph, state: map<string, int>, finished: seq<string>)
    requires SearchInvariant(g, state, [], finished) && state.Keys == g.Keys
    ensures Acyclic(g)
  {
    forall x | x in g ensures x in finished { assert x in state && state[x] != 1; }
    assert Elements(finished) == g.Keys;
    OrderedIsAcyclic(g, finished);
  }

  method FindCycle(g: Graph, names: seq<string>, ghost index: map<string, nat>) returns (cycle: seq<string>)
    requires Declared(g, names, index)
    ensures cycle != [] ==> IsCycle(g, cycle)
    ensures cycle == [] <==> Acyclic(g)
  {
    var state: map<string, int>, stack: seq<string> := map[], [];
    ghost var finished: seq<string> := [];
    for i := 0 to |names|
      invariant SearchInvariant(g, state, stack, finished) && stack == []
      invariant forall k :: 0 <= k < i ==> names[k] in state
    {
      if names[i] !in state {
        cycle, state, stack, finished := Visit(g, names[i], state, stack, finished);
        if cycle != [] { return; }
      }
    }
    assert state.Keys == g.Keys by {
      forall x | x in g ensures x in state { assert names[index[x]] in state; }
    }
    AllFinished(g, state, finished);
    cycle := [];
  }

  // ---------- The reducer's level peeling ----------

  /** `while pending`: drop every task none of whose dependencies is pending. */
  function Peels(g: Graph, pending: set<string>): bool
    requires pending <= g.Keys
  {
    if pending == {} then true
    else
      var ready := set id | id in pending && forall d :: d in g[id].deps ==> d !in pending;
      if ready == {} then false else Peels(g, pending - ready)
  }

  lemma {:induction false} PeelingFindsCycles(g: Graph, pending: set<string>)
    requires Closed(g) && pending <= g.Keys && !Peels(g, pending)
    ensures !Acyclic(g)
    decreases pending
  {
    var ready := set id | id in pending && forall d :: d in g[id].deps ==> d !in pending;
    if ready == {} {
      forall id | id in pending ensures Waits(g, pending, id) { assert id !in ready; }
      StuckIsCyclic(g, pending);
    } else {
      PeelingFindsCycles(g, pending - ready);
    }
  }

  lemma {:induction false} CyclesStopPeeling(g: Graph, pending: set<string>, c: seq<string>)
    requires pending <= g.Keys && IsCycle(g, c) && Elements(c) <= pending
    ensures !Peels(g, pending)
    decreases pending
  {
    var ready := set id | id in pending && forall d :: d in g[id].deps ==> d !in pending;
    assert c[0] in Elements(c);
    forall i | 0 <= i < |c| ensures c[i] in pending - ready {
      var j := if i == |c| - 1 then 0 else i;
      assert c[j + 1] in Elements(c) && c[j + 1] in g[c[j]].deps;
    }
    if ready != {} { CyclesStopPeeling(g, pending - ready, c); }
  }

  /** The reducer accepts a planned graph exactly when the definition does. */
  lemma PeelingAgrees(g: Graph)
    requires Closed(g)
    ensures Peels(g, g.Keys) <==> Acyclic(g)
  {
    if !Peels(g, g.Keys) { PeelingFindsCycles(g, g.Keys); }
    if !Acyclic(g) {
      var c :| IsCycle(g, c);
      forall i | 0 <= i < |c| ensures c[i] in g {
        if i == |c| - 1 { assert c[i] == c[0]; }
      }
      CyclesStopPeeling(g, g.Keys, c);
    }
  }
}
