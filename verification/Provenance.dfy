/** Degradation and provenance through the graph: what a task's ending says about its ancestors, which ancestors its
    degraded ancestry names, and where every source it used comes from. */
module Provenance {
  import opened Common
  import opened Events
  import opened Workload
  import opened TurnLoop
  import opened Simulation
  import Dag
  import Scheduler
  import SchedulerTheorems

  // ---------- Bodies that respect their context ----------

  ghost predicate Careful(t: Dag.Task, deps: seq<Outcome>, direct: seq<string>, trace: Trace) {
    |deps| == |t.deps| && !trace.raised ==>
      && (trace.last.status.Complete? || trace.last.status.Partial? || trace.last.status.Failed?)
      && trace.last.ancestry == DegradedAncestry(t.deps, deps)
      && (trace.last.status.Complete? ==> trace.last.ancestry == [])
      && (trace.last.status.Partial? ==> trace.last.ancestry != [])
      && Elements(trace.last.sources) <= Elements(AllowedSources(direct, deps))
  }

  ghost predicate CarefulAt(w: Workload, evidence: string -> seq<string>, id: string, deps: seq<Outcome>) {
    id in w.graph ==> Careful(w.graph[id], deps, evidence(id), w.body(w.graph[id], deps))
  }

  ghost predicate CarefulBody(w: Workload, evidence: string -> seq<string>) {
    forall id, deps :: CarefulAt(w, evidence, id, deps)
  }

  /** The runtime's body: the turn loop on the task's own evidence, against any models and tools. */
  function FixedDagBody(evidence: string -> seq<string>, scripts: (string, seq<Outcome>) -> Script): Body {
    (t: Dag.Task, deps: seq<Outcome>) =>
      if |deps| == |t.deps| then TaskTrace(t, deps, evidence(t.id), scripts(t.id, deps))
      else Trace([], Outcome(Failed, None, None, [], 0, 0, []), true)
  }

  /** The turn loop is a body the reducer can follow, and a careful one, whatever models and tools do. */
  lemma FixedDagBodyIsSound(w: Workload, evidence: string -> seq<string>, scripts: (string, seq<Outcome>) -> Script)
    requires Dag.Closed(w.graph) && w.body == FixedDagBody(evidence, scripts)
    ensures LawfulBody(w) && CarefulBody(w, evidence)
  {
    forall id, deps ensures LawfulAt(w, id, deps) && CarefulAt(w, evidence, id, deps) {
      if id in w.graph && |deps| == |w.graph[id].deps| {
        var t := w.graph[id];
        TaskTraceIsLawful(t, deps, evidence(id), scripts(id, deps));
        TaskLoopSound(t, ContextOf(t, deps, evidence(id)), scripts(id, deps));
      }
    }
  }

  // ---------- When runs finish ----------

  /** The task runs, and the models and tools it asks meet its loop with an answer that raises past its handlers. */
  ghost predicate EscapesIn(
      w: Workload, m: Verdicts, evidence: string -> seq<string>, scripts: (string, seq<Outcome>) -> Script, id: string)
  {
    && SchedulerTheorems.RunsBody(w, m, id)
    && var t, deps := w.graph[id], EndedOutcomes(m, w.graph[id].deps);
    MeetsEscape(t, ContextOf(t, deps, evidence(id)), scripts(id, deps))
  }

  ghost predicate NothingEscapes(
      w: Workload, m: Verdicts, evidence: string -> seq<string>, scripts: (string, seq<Outcome>) -> Script)
  {
    forall id :: id in w.graph ==> !EscapesIn(w, m, evidence, scripts, id)
  }

  lemma EscapeBreaksOff(
      w: Workload, m: Verdicts, evidence: string -> seq<string>, scripts: (string, seq<Outcome>) -> Script, id: string)
    requires Dag.Closed(w.graph) && w.body == FixedDagBody(evidence, scripts) && id in w.graph
    ensures EscapesIn(w, m, evidence, scripts, id) <==> SchedulerTheorems.BreaksOff(w, m, id)
  {
    if SchedulerTheorems.RunsBody(w, m, id) {
      var t, deps := w.graph[id], EndedOutcomes(m, w.graph[id].deps);
      TaskLoopSound(t, ContextOf(t, deps, evidence(id)), scripts(id, deps));
      assert w.body(t, deps) == TaskTrace(t, deps, evidence(id), scripts(id, deps));
    }
  }

  /** With the turn loop as the tasks' body, a run that is over has finished exactly when no task that runs meets an
      answer that raises past the loop's handlers; otherwise it stopped at such a task. */
  lemma FixedDagRunsFinishIff(
      w: Workload, m: Verdicts, evidence: string -> seq<string>, scripts: (string, seq<Outcome>) -> Script,
      actors: seq<Scheduler.Actor>)
    requires Valid(w) && Solves(w, m) && w.body == FixedDagBody(evidence, scripts)
    requires Scheduler.Over(Scheduler.Run(w, actors))
    ensures Scheduler.Run(w, actors).pc.Done? <==> NothingEscapes(w, m, evidence, scripts)
    ensures var s := Scheduler.Run(w, actors);
      !s.pc.Done? ==> s.pc.Aborted? && EscapesIn(w, m, evidence, scripts, s.pc.t.id)
  {
    SchedulerTheorems.FinishedIff(w, m, actors);
    forall id | id in w.graph
      ensures EscapesIn(w, m, evidence, scripts, id) <==> SchedulerTheorems.BreaksOff(w, m, id)
    {
      EscapeBreaksOff(w, m, evidence, scripts, id);
    }
  }

  /** No model or tool ever answers with such a raise. */
  ghost predicate AllCalm(scripts: (string, seq<Outcome>) -> Script) {
    forall id, deps :: CalmFor(scripts, id, deps)
  }

  ghost predicate CalmFor(scripts: (string, seq<Outcome>) -> Script, id: string, deps: seq<Outcome>) {
    Calm(scripts(id, deps))
  }

  lemma CalmMeansNothingEscapes(
      w: Workload, m: Verdicts, evidence: string -> seq<string>, scripts: (string, seq<Outcome>) -> Script)
    requires AllCalm(scripts)
    ensures NothingEscapes(w, m, evidence, scripts)
  {
    forall id | id in w.graph ensures !EscapesIn(w, m, evidence, scripts, id) {
      if SchedulerTheorems.RunsBody(w, m, id) {
        var t, deps := w.graph[id], EndedOutcomes(m, w.graph[id].deps);
        assert CalmFor(scripts, id, deps);
        CalmScriptsDoNotRaise(t, ContextOf(t, deps, evidence(id)), scripts(id, deps));
      }
    }
  }

  /** What a caller can see to: then every run that is over has finished all its tasks. */
  lemma FixedDagRunsFinish(
      w: Workload, evidence: string -> seq<string>, scripts: (string, seq<Outcome>) -> Script,
      actors: seq<Scheduler.Actor>)
    requires Valid(w) && w.body == FixedDagBody(evidence, scripts) && AllCalm(scripts)
    requires Scheduler.Over(Scheduler.Run(w, actors))
    ensures Scheduler.Run(w, actors).pc.Done?
    ensures Scheduler.Run(w, actors).terminal == w.graph.Keys
  {
    var m := EvaluationExists(w);
    CalmMeansNothingEscapes(w, m, evidence, scripts);
    FixedDagRunsFinishIff(w, m, evidence, scripts, actors);
    SchedulerTheorems.RunsEvaluate(w, m, actors);
  }

  // ---------- Reading the evaluation ----------

  predicate EndedAs(m: Verdicts, id: string, status: TaskStatus) {
    id in m && m[id].Ended? && m[id].outcome.status == status
  }

  predicate EndedIncomplete(m: Verdicts, id: string) {
    id in m && m[id].Ended? && !m[id].outcome.status.Complete?
  }

  ghost predicate Evaluated(w: Workload, m: Verdicts, evidence: string -> seq<string>) {
    Valid(w) && Solves(w, m) && CarefulBody(w, evidence)
  }

  /** A task that ended had all its dependencies end; it was skipped, or its outcome is its body's. */
  lemma EndedTask(w: Workload, m: Verdicts, evidence: string -> seq<string>, id: string)
    requires Evaluated(w, m, evidence) && id in w.graph && m[id].Ended?
    ensures AllEnded(m, w.graph[id].deps)
    ensures var t := w.graph[id]; var deps := EndedOutcomes(m, t.deps); var o := m[id].outcome;
      if BlockedByFailure(t, deps) then o == SkippedOutcome(t, deps)
      else
        && (o.status.Complete? || o.status.Partial? || o.status.Failed?)
        && o.ancestry == DegradedAncestry(t.deps, deps)
        && (o.status.Complete? ==> o.ancestry == []) && (o.status.Partial? ==> o.ancestry != [])
        && Elements(o.sources) <= Elements(AllowedSources(evidence(id), deps))
  {
    assert m[id] == VerdictOf(w, m, id);
    assert CarefulAt(w, evidence, id, EndedOutcomes(m, w.graph[id].deps));
  }

  /** A task that ended was skipped exactly when it does not tolerate failures and one of its dependencies failed or
      was skipped. */
  lemma SkippedExactly(w: Workload, m: Verdicts, evidence: string -> seq<string>, id: string)
    requires Evaluated(w, m, evidence) && id in w.graph && m[id].Ended?
    ensures EndedAs(m, id, Skipped) <==>
      !w.graph[id].allowFailed && exists d :: d in w.graph[id].deps && EndedBadly(m, d)
  {
    EndedTask(w, m, evidence, id);
    BlockedIff(w.graph[id], EndedOutcomes(m, w.graph[id].deps));
    BadDependency(m, w.graph[id].deps);
  }

  // ---------- Lists over the dependencies ----------

  lemma {:induction false} AncestryMembers(names: seq<string>, deps: seq<Outcome>, x: string)
    requires |names| == |deps|
    ensures x in AncestryList(names, deps) <==> exists i :: NamesAncestor(names, deps, i, x)
  {
    if names != [] {
      var n := |names| - 1;
      AncestryMembers(names[..n], deps[..n], x);
      if x in AncestryList(names, deps) {
        if x in AncestryList(names[..n], deps[..n]) {
          var i :| NamesAncestor(names[..n], deps[..n], i, x);
          assert NamesAncestor(names, deps, i, x);
        } else {
          assert NamesAncestor(names, deps, n, x);
        }
      }
      if i :| NamesAncestor(names, deps, i, x) {
        if i < n { assert NamesAncestor(names[..n], deps[..n], i, x); }
      }
    }
  }

  /** Dependency i is itself the ancestor named, or passes it on. */
  predicate NamesAncestor(names: seq<string>, deps: seq<Outcome>, i: int, x: string)
    requires |names| == |deps|
  {
    && 0 <= i < |names|
    && ((x == names[i] && (deps[i].status.Bad() || deps[i].status.Partial?)) || x in deps[i].ancestry)
  }

  predicate UsedBy(deps: seq<Outcome>, i: int, x: string) {
    0 <= i < |deps| && x in deps[i].sources
  }

  lemma {:induction false} SourceMembers(deps: seq<Outcome>, x: string)
    ensures x in SourceList(deps) <==> exists i :: UsedBy(deps, i, x)
  {
    if deps != [] {
      var n := |deps| - 1;
      SourceMembers(deps[..n], x);
      if x in deps[n].sources { assert UsedBy(deps, n, x); }
      if i :| UsedBy(deps[..n], i, x) { assert UsedBy(deps, i, x); }
      if i :| UsedBy(deps, i, x) {
        if i < n { assert UsedBy(deps[..n], i, x); }
      }
    }
  }

  /** A task may cite exactly its direct evidence and what its dependencies used. */
  lemma AllowedSourcesAreExact(direct: seq<string>, deps: seq<Outcome>, x: string)
    ensures x in AllowedSources(direct, deps) <==> x in direct || exists i :: UsedBy(deps, i, x)
  {
    SourceMembers(deps, x);
    assert x in AllowedSources(direct, deps) <==> x in Elements(AllowedSources(direct, deps));
    assert x in Elements(direct + SourceList(deps)) <==> x in direct || x in SourceList(deps);
  }

  // ---------- Degradation ----------

  /** COMPLETE is only ever built on COMPLETE, along every dependency path. */
  lemma {:induction false} CompleteAllTheWay(w: Workload, m: Verdicts, evidence: string -> seq<string>, p: seq<string>)
    requires Evaluated(w, m, evidence) && |p| > 0 && Dag.IsPath(w.graph, p)
    requires EndedAs(m, p[0], TaskStatus.Complete)
    ensures EndedAs(m, p[|p| - 1], TaskStatus.Complete)
  {
    if |p| > 1 {
      CompleteDependency(w, m, evidence, p[0], p[1]);
      CompleteAllTheWay(w, m, evidence, p[1..]);
    }
  }

  lemma CompleteDependency(w: Workload, m: Verdicts, evidence: string -> seq<string>, id: string, d: string)
    requires Evaluated(w, m, evidence) && EndedAs(m, id, TaskStatus.Complete) && d in w.graph[id].deps
    ensures EndedAs(m, d, TaskStatus.Complete)
  {
    EndedTask(w, m, evidence, id);
    var t, deps := w.graph[id], EndedOutcomes(m, w.graph[id].deps);
    var i :| 0 <= i < |t.deps| && t.deps[i] == d;
    EndedTask(w, m, evidence, d);
    CleanAncestry(t.deps, deps, i);
  }

  /** A dependency that did not complete, or has a degraded ancestry of its own, shows in the dependent's. */
  lemma CleanAncestry(names: seq<string>, deps: seq<Outcome>, i: nat)
    requires |names| == |deps| && i < |deps|
    ensures DegradedAncestry(names, deps) == [] ==>
      !deps[i].status.Bad() && !deps[i].status.Partial? && deps[i].ancestry == []
  {
    AncestryMembers(names, deps, names[i]);
    if deps[i].status.Bad() || deps[i].status.Partial? {
      assert NamesAncestor(names, deps, i, names[i]);
      assert names[i] in Elements(DegradedAncestry(names, deps));
    } else if deps[i].ancestry != [] {
      var a := deps[i].ancestry[0];
      AncestryMembers(names, deps, a);
      assert NamesAncestor(names, deps, i, a);
      assert a in Elements(DegradedAncestry(names, deps));
    }
  }

  /** A path from a task to an ancestor that did not complete, through tasks that were not skipped. */
  ghost predicate TaintedPath(w: Workload, m: Verdicts, p: seq<string>) {
    && |p| >= 2 && Dag.IsPath(w.graph, p)
    && EndedIncomplete(m, p[|p| - 1])
    && forall i :: 0 < i < |p| - 1 ==> !EndedAs(m, p[i], Skipped)
  }

  /** The dependency that a task owes a named ancestor to. */
  lemma WhoNames(w: Workload, m: Verdicts, evidence: string -> seq<string>, id: string, a: string) returns (d: string)
    requires Evaluated(w, m, evidence) && id in w.graph && m[id].Ended? && a in m[id].outcome.ancestry
    ensures d in w.graph[id].deps && d in w.graph && m[d].Ended?
    ensures (a == d && EndedIncomplete(m, d)) || (a in m[d].outcome.ancestry && !EndedAs(m, d, Skipped))
  {
    EndedTask(w, m, evidence, id);
    var t, deps := w.graph[id], EndedOutcomes(m, w.graph[id].deps);
    assert a in Elements(DegradedAncestry(t.deps, deps));
    AncestryMembers(t.deps, deps, a);
    var i :| NamesAncestor(t.deps, deps, i, a);
    d := t.deps[i];
    EndedTask(w, m, evidence, d);
  }

  lemma LongerPath(g: Dag.Graph, id: string, q: seq<string>)
    requires id in g && q != [] && q[0] in g[id].deps && Dag.IsPath(g, q)
    ensures Dag.IsPath(g, [id] + q)
  {
  }

  lemma TaintedStep(w: Workload, m: Verdicts, id: string, q: seq<string>)
    requires id in w.graph && TaintedPath(w, m, q) && q[0] in w.graph[id].deps && !EndedAs(m, q[0], Skipped)
    ensures TaintedPath(w, m, [id] + q)
  {
    LongerPath(w.graph, id, q);
  }

  lemma Earlier(w: Workload, k: nat, d: string) returns (j: nat)
    requires Valid(w) && k < |w.order| && w.order[k] in w.graph && d in w.graph[w.order[k]].deps
    ensures j < k && w.order[j] == d
  {
    assert Dag.FollowsDependencies(w.graph, w.order, k) && d in w.order[..k];
    j :| 0 <= j < k && w.order[j] == d;
  }

  /** Whatever the degraded ancestry names is such an ancestor. */
  lemma {:induction false} NamedAncestorIsTainted(
      w: Workload, m: Verdicts, evidence: string -> seq<string>, k: nat, a: string) returns (p: seq<string>)
    requires Evaluated(w, m, evidence) && k < |w.order| && w.order[k] in w.graph && m[w.order[k]].Ended?
    requires a in m[w.order[k]].outcome.ancestry
    ensures p != [] && p[0] == w.order[k] && p[|p| - 1] == a && TaintedPath(w, m, p)
    decreases k
  {
    var id := w.order[k];
    var d := WhoNames(w, m, evidence, id, a);
    if a == d && EndedIncomplete(m, d) {
      p := [id, d];
    } else {
      var j := Earlier(w, k, d);
      var q := NamedAncestorIsTainted(w, m, evidence, j, a);
      TaintedStep(w, m, id, q);
      p := [id] + q;
    }
  }

  /** Every such ancestor is named by a task that ran. */
  lemma {:induction false} TaintedAncestorIsNamed(
      w: Workload, m: Verdicts, evidence: string -> seq<string>, p: seq<string>)
    requires Evaluated(w, m, evidence) && TaintedPath(w, m, p)
    requires p[0] in m && m[p[0]].Ended? && !EndedAs(m, p[0], Skipped)
    ensures p[|p| - 1] in m[p[0]].outcome.ancestry
    decreases |p|
  {
    var id, d, a := p[0], p[1], p[|p| - 1];
    EndedTask(w, m, evidence, id);
    var t, deps := w.graph[id], EndedOutcomes(m, w.graph[id].deps);
    assert p[0 + 1] in w.graph[p[0]].deps;
    var i :| 0 <= i < |t.deps| && t.deps[i] == d;
    EndedTask(w, m, evidence, d);
    if |p| > 2 {
      assert !EndedAs(m, p[1], Skipped);
      TaintedAncestorIsNamed(w, m, evidence, p[1..]);
    }
    assert NamesAncestor(t.deps, deps, i, a);
    AncestryMembers(t.deps, deps, a);
    assert a in Elements(DegradedAncestry(t.deps, deps));
  }

  /** Exactly which ancestors the degraded ancestry of a task that ran names. */
  lemma DegradedAncestryIsExact(w: Workload, m: Verdicts, evidence: string -> seq<string>, id: string, a: string)
    requires Evaluated(w, m, evidence) && id in m && m[id].Ended? && !EndedAs(m, id, Skipped)
    ensures a in m[id].outcome.ancestry <==> exists p :: TaintedPath(w, m, p) && p[0] == id && p[|p| - 1] == a
  {
    if a in m[id].outcome.ancestry {
      assert id in Elements(w.order);
      var k :| 0 <= k < |w.order| && w.order[k] == id;
      var p := NamedAncestorIsTainted(w, m, evidence, k, a);
    }
    if p :| TaintedPath(w, m, p) && p[0] == id && p[|p| - 1] == a {
      TaintedAncestorIsNamed(w, m, evidence, p);
    }
  }

  /** A task that ended well is PARTIAL exactly when some ancestor did not complete. */
  lemma PartialIff(w: Workload, m: Verdicts, evidence: string -> seq<string>, id: string)
    requires Evaluated(w, m, evidence) && id in m && m[id].Ended? && m[id].outcome.status.Success()
    ensures m[id].outcome.status.Partial? <==>
      exists p :: |p| >= 2 && Dag.IsPath(w.graph, p) && p[0] == id && EndedIncomplete(m, p[|p| - 1])
  {
    EndedTask(w, m, evidence, id);
    if m[id].outcome.status.Partial? {
      var a := m[id].outcome.ancestry[0];
      DegradedAncestryIsExact(w, m, evidence, id, a);
      var p :| TaintedPath(w, m, p) && p[0] == id && p[|p| - 1] == a;
    } else if p :| |p| >= 2 && Dag.IsPath(w.graph, p) && p[0] == id && EndedIncomplete(m, p[|p| - 1]) {
      CompleteAllTheWay(w, m, evidence, p);
      assert false;
    }
  }

  function NoEvidence(): string -> seq<string> {
    (id: string) => []
  }

  function ChainTask(id: string, deps: seq<string>, allowFailed: bool): Dag.Task {
    Dag.Task(id, "agent", deps, true, allowFailed, [], 1, 0, 1, 0)
  }

  /** The model breaks off on task "a" and gives every other task a final answer that cites nothing. */
  function BreaksOffOnce(): (string, seq<Outcome>) -> Script {
    (id: string, deps: seq<Outcome>) => Script(
      (turn: nat) => if id == "a" then InvalidResult("no answer") else FinalAction("", "done", None, Some([])),
      (turn: nat, call: nat) => ExecutionError(""))
  }

  function ChainWorkload(): Workload {
    Workload(
      map["a" := ChainTask("a", [], false), "b" := ChainTask("b", ["a"], false), "c" := ChainTask("c", ["b"], true)],
      ["a", "b", "c"], 1, FixedDagBody(NoEvidence(), BreaksOffOnce()))
  }

  lemma ChainIsOrdered(g: Dag.Graph, x: string, y: string, z: string)
    requires x != y && y != z && x != z && g.Keys == {x, y, z}
    requires g[x].id == x && g[y].id == y && g[z].id == z
    requires g[x].deps == [] && g[y].deps == [x] && g[z].deps == [y]
    ensures Dag.Closed(g) && Dag.TopologicalOrder(g, [x, y, z])
  {
    var order := [x, y, z];
    assert order[..1] == [x] && order[..2] == [x, y];
    assert Dag.FollowsDependencies(g, order, 0) && Dag.FollowsDependencies(g, order, 1);
    assert Dag.FollowsDependencies(g, order, 2);
  }

  lemma ChainIsValid()
    ensures Valid(ChainWorkload())
  {
    ChainIsOrdered(ChainWorkload().graph, "a", "b", "c");
  }

  /** A task of one turn and no repairs is over after the model's first answer. */
  lemma OneTurn(t: Dag.Task, c: Context, script: Script)
    requires t.maxTurns == 1 && t.repairBudget == 0
    ensures script.reply(1).InvalidResult? ==> TaskLoop(t, c, script).outcome.status.Failed?
    ensures var a := script.reply(1);
      a.FinalAction? && a.schemaError.None? && a.citations == Some([]) && c.ancestry != [] ==>
        TaskLoop(t, c, script).outcome.status.Partial? && TaskLoop(t, c, script).outcome.ancestry == c.ancestry
  {
    var s := PlayTurn(t, c, script, Started(c), 1);
    assert PlayTurns(t, c, script, s, 2) == s || !s.ended;
  }

  /** What the evaluation says of the chain: a fails, b is skipped, and c only hears of b. */
  lemma ChainVerdicts(m: Verdicts)
    requires Solves(ChainWorkload(), m)
    ensures EndedAs(m, "a", Failed) && EndedAs(m, "b", Skipped) && EndedAs(m, "c", Partial)
    ensures m["c"].outcome.ancestry == ["b"]
  {
    var w := ChainWorkload();
    var a, b, c := w.graph["a"], w.graph["b"], w.graph["c"];
    assert m["a"] == VerdictOf(w, m, "a") && m["b"] == VerdictOf(w, m, "b") && m["c"] == VerdictOf(w, m, "c");
    NoDependencies(m);
    OneTurn(a, ContextOf(a, [], []), BreaksOffOnce()("a", []));
    assert m["a"] == Ended(TaskTrace(a, [], [], BreaksOffOnce()("a", [])).last);
    OneDependency(m, "a");
    assert m["b"] == Ended(SkippedOutcome(b, EndedOutcomes(m, ["a"])));
    OneDependency(m, "b");
    var deps := EndedOutcomes(m, ["b"]);
    OneTurn(c, ContextOf(c, deps, []), BreaksOffOnce()("c", deps));
    assert m["c"] == Ended(TaskTrace(c, deps, [], BreaksOffOnce()("c", deps)).last);
  }

  lemma NoDependencies(m: Verdicts)
    ensures AllEnded(m, []) && EndedOutcomes(m, []) == [] && Failures([], []) == []
  {
  }

  lemma OneDependency(m: Verdicts, d: string)
    requires d in m && m[d].Ended? && m[d].outcome.status.Bad()
    ensures AllEnded(m, [d]) && Failures([d], EndedOutcomes(m, [d])) == [d]
    ensures m[d].outcome.ancestry == [] ==> DegradedAncestry([d], EndedOutcomes(m, [d])) == [d]
  {
    var deps := EndedOutcomes(m, [d]);
    assert [d][..0] == [] && deps[..0] == [];
    assert Failures([d][..0], deps[..0]) == [] && AncestryList([d][..0], deps[..0]) == [];
    assert AncestryList([d], deps) == [d] + m[d].outcome.ancestry;
    assert Distinct([d]) == [d] by { assert Distinct([d][..0]) == []; }
  }

  /** The ancestry is not the list of all bad ancestors: behind a skipped task the failure that caused the skip is no
      longer named. The bodies are the turn loop's own; c tolerates the skipped b and never names the failed a. */
  lemma SkipHidesItsCause() returns (w: Workload, m: Verdicts)
    ensures w.body == FixedDagBody(NoEvidence(), BreaksOffOnce()) && LawfulBody(w)
    ensures Evaluated(w, m, NoEvidence())
    ensures Dag.IsPath(w.graph, ["c", "b", "a"]) && EndedAs(m, "a", Failed) && EndedAs(m, "c", Partial)
    ensures m["c"].outcome.ancestry == ["b"]
  {
    w := ChainWorkload();
    ChainIsValid();
    FixedDagBodyIsSound(w, NoEvidence(), BreaksOffOnce());
    m := EvaluationExists(w);
    ChainVerdicts(m);
    ChainIsPath(w.graph, "a", "b", "c");
  }

  lemma ChainIsPath(g: Dag.Graph, x: string, y: string, z: string)
    requires g.Keys == {x, y, z} && y in g[z].deps && x in g[y].deps
    ensures Dag.IsPath(g, [z, y, x])
  {
  }

  // ---------- A run that breaks off ----------

  /** A model that raises past the handlers whenever it is asked. */
  function RaisesAtOnce(): (string, seq<Outcome>) -> Script {
    (id: string, deps: seq<Outcome>) =>
      Script((turn: nat) => Escapes(Unanswered, ""), (turn: nat, call: nat) => ExecutionError(""))
  }

  function LoneWorkload(): Workload {
    Workload(map["a" := ChainTask("a", [], false)], ["a"], 1, FixedDagBody(NoEvidence(), RaisesAtOnce()))
  }

  lemma LoneIsValid()
    ensures Valid(LoneWorkload())
  {
    var w := LoneWorkload();
    assert Unique(w.order) && Dag.FollowsDependencies(w.graph, w.order, 0);
    assert Elements(w.order) == w.graph.Keys;
  }

  function Alternating(): nat -> Scheduler.Actor {
    (n: nat) => if n % 2 == 0 then Scheduler.Loop else Scheduler.Pump("a")
  }

  lemma AlternatingIsFair()
    ensures SchedulerTheorems.Fair(LoneWorkload(), Alternating())
  {
    forall n: nat ensures SchedulerTheorems.HasLaterTurn(Alternating(), Scheduler.Loop, n) {
      assert SchedulerTheorems.TurnOf(Alternating(), Scheduler.Loop, 2 * n);
    }
    forall n: nat ensures SchedulerTheorems.HasLaterTurn(Alternating(), Scheduler.Pump("a"), n) {
      assert SchedulerTheorems.TurnOf(Alternating(), Scheduler.Pump("a"), 2 * n + 1);
    }
  }

  lemma LoneEscapes(m: Verdicts)
    requires Solves(LoneWorkload(), m)
    ensures EscapesIn(LoneWorkload(), m, NoEvidence(), RaisesAtOnce(), "a")
  {
    var t := LoneWorkload().graph["a"];
    assert EndedOutcomes(m, t.deps) == [] && Failures([], []) == [];
    assert TurnEscapes(t, ContextOf(t, [], []), RaisesAtOnce()("a", []), Started(ContextOf(t, [], [])), 1);
  }

  /** It does happen: a run of the turn loop that an exception ends early. */
  lemma EscapeAbortsRun() returns (w: Workload, actors: seq<Scheduler.Actor>)
    ensures Valid(w) && w.body == FixedDagBody(NoEvidence(), RaisesAtOnce()) && LawfulBody(w)
    ensures Scheduler.Run(w, actors).pc.Aborted?
  {
    w := LoneWorkload();
    LoneIsValid();
    FixedDagBodyIsSound(w, NoEvidence(), RaisesAtOnce());
    AlternatingIsFair();
    SchedulerTheorems.FairSchedulesEnd(w, Alternating());
    var k: nat :| Scheduler.Over(SchedulerTheorems.After(w, Alternating(), k));
    actors := SchedulerTheorems.Prefix(Alternating(), k);
    var m := EvaluationExists(w);
    LoneEscapes(m);
    FixedDagRunsFinishIff(w, m, NoEvidence(), RaisesAtOnce(), actors);
  }

  // ---------- Provenance ----------

  /** Where a task has a source from: its own evidence, or a dependency that ended with it. */
  lemma WhoSupplies(w: Workload, m: Verdicts, evidence: string -> seq<string>, id: string, source: string)
    returns (d: string)
    requires Evaluated(w, m, evidence) && id in w.graph && m[id].Ended? && source in m[id].outcome.sources
    ensures source in evidence(id) ||
      (d in w.graph[id].deps && d in w.graph && m[d].Ended? && source in m[d].outcome.sources)
  {
    EndedTask(w, m, evidence, id);
    var t, deps := w.graph[id], EndedOutcomes(m, w.graph[id].deps);
    assert source in Elements(AllowedSources(evidence(id), deps));
    d := id;
    if source !in evidence(id) {
      assert source in Elements(evidence(id) + SourceList(deps));
      SourceMembers(deps, source);
      var i :| UsedBy(deps, i, source);
      d := t.deps[i];
    }
  }

  /** Every source a task ends with is direct evidence of the task itself or of one of its ancestors. */
  lemma {:induction false} SourcesComeFromEvidence(
      w: Workload, m: Verdicts, evidence: string -> seq<string>, k: nat, source: string) returns (p: seq<string>)
    requires Evaluated(w, m, evidence) && k < |w.order| && w.order[k] in w.graph && m[w.order[k]].Ended?
    requires source in m[w.order[k]].outcome.sources
    ensures p != [] && p[0] == w.order[k] && Dag.IsPath(w.graph, p) && source in evidence(p[|p| - 1])
    decreases k
  {
    var id := w.order[k];
    var d := WhoSupplies(w, m, evidence, id, source);
    if source in evidence(id) {
      p := [id];
    } else {
      var j := Earlier(w, k, d);
      var q := SourcesComeFromEvidence(w, m, evidence, j, source);
      LongerPath(w.graph, id, q);
      p := [id] + q;
    }
  }
}
