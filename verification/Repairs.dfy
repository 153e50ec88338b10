/** Which answers end a task, which cost a repair and which fail it: the turn loop of `_stream_task` against a tally of
    calls, rejections and sources that is read off the script alone. */
module Repairs {
  import opened Common
  import opened Events
  import opened Workload
  import opened TurnLoop
  import Dag

  // ---------- Reading an answer ----------

  predicate Trusted(sources: Option<seq<string>>, allowed: seq<string>) {
    sources.Some? && forall x :: x in sources.value ==> x in allowed
  }

  /** An accepted final action: it fits the schema and cites trusted sources only. */
  predicate AcceptableFinal(c: Context, a: Reply) {
    a.FinalAction? && a.schemaError.None? && Trusted(a.citations, c.allowed)
  }

  predicate Startable(t: Dag.Task, allowed: seq<string>, p: Proposal) {
    && p.name in t.tools && Trusted(p.proposed, allowed) && p.binding.None? && Trusted(p.canonical, allowed)
    && p.contract.Met?
  }

  /** A refused proposal that the model may correct: a binding error that says so, or arguments against the schema. */
  predicate Correctable(t: Dag.Task, allowed: seq<string>, p: Proposal) {
    && p.name in t.tools && Trusted(p.proposed, allowed)
    && if p.binding.Some? then p.binding.value.repairable else Trusted(p.canonical, allowed) && p.contract.Violated?
  }

  predicate AllStartable(t: Dag.Task, allowed: seq<string>, calls: seq<Proposal>) {
    forall p :: p in calls ==> Startable(t, allowed, p)
  }

  predicate FirstUnstartable(t: Dag.Task, allowed: seq<string>, calls: seq<Proposal>, k: nat) {
    k < |calls| && !Startable(t, allowed, calls[k]) && forall j :: 0 <= j < k ==> Startable(t, allowed, calls[j])
  }

  ghost predicate CorrectableCalls(t: Dag.Task, allowed: seq<string>, calls: seq<Proposal>) {
    exists k: nat :: FirstUnstartable(t, allowed, calls, k) && Correctable(t, allowed, calls[k])
  }

  /** The call limits of the turn and of the task, when `used` calls have been started before. */
  predicate WithinLimits(t: Dag.Task, calls: seq<Proposal>, used: nat) {
    0 < |calls| <= t.maxCallsPerTurn && used + |calls| <= t.maxToolCalls
  }

  /** The turn starts its calls. */
  predicate Calling(t: Dag.Task, c: Context, a: Reply, used: nat) {
    a.ToolCallsAction? && WithinLimits(t, a.calls, used) && AllStartable(t, c.allowed, a.calls)
  }

  /** How many of the calls k to n - 1 succeed before one does not. */
  function Successes(c: Context, script: Script, turn: nat, k: nat, n: nat): (r: nat)
    requires k <= n
    ensures k + r <= n
    ensures forall j: nat :: k <= j < k + r ==> Succeeds(c, script.tool(turn, j))
    ensures k + r < n ==> !Succeeds(c, script.tool(turn, k + r))
    decreases n - k
  {
    if k == n || !Succeeds(c, script.tool(turn, k)) then 0 else 1 + Successes(c, script, turn, k + 1, n)
  }

  predicate ToolRefuses(c: Context, r: ToolReply) {
    r.ToolResult? && !r.ok && forall x :: x in r.sources ==> x in c.allowed
  }

  /** The turn's calls all succeed. */
  predicate Working(t: Dag.Task, c: Context, script: Script, turn: nat, used: nat) {
    var a := script.reply(turn);
    Calling(t, c, a, used) && Successes(c, script, turn, 0, |a.calls|) == |a.calls|
  }

  /** A call of the turn is answered by a refusal. */
  predicate Rebuffed(t: Dag.Task, c: Context, script: Script, turn: nat, used: nat, repairable: bool) {
    var a := script.reply(turn);
    && Calling(t, c, a, used)
    && var k := Successes(c, script, turn, 0, |a.calls|);
      && k < |a.calls| && ToolRefuses(c, script.tool(turn, k))
      && script.tool(turn, k).refusal.repairable == repairable
  }

  /** The turn's answer is rejected, and the rejection is repairable or not. */
  ghost predicate Refused(t: Dag.Task, c: Context, script: Script, turn: nat, used: nat, repairable: bool) {
    match script.reply(turn)
    case Escapes(_, _) => false
    case InvalidResult(_) => !repairable
    case Unparsable(_, refusal) => refusal.repairable == repairable
    case FinalAction(_, _, schemaError, citations) =>
      if schemaError.Some? then repairable else !Trusted(citations, c.allowed) && !repairable
    case ToolCallsAction(_, calls) =>
      if calls == [] then repairable
      else if !WithinLimits(t, calls, used) then !repairable
      else if !AllStartable(t, c.allowed, calls) then CorrectableCalls(t, c.allowed, calls) == repairable
      else Rebuffed(t, c, script, turn, used, repairable)
  }

  // ---------- The tally ----------

  /** Calls started, answers rejected and sources gathered. */
  datatype Tally = Tally(calls: nat, rejections: nat, sources: set<string>)

  predicate RepairLeft(t: Dag.Task, rejections: nat, turn: nat) {
    rejections < t.repairBudget && turn < t.maxTurns
  }

  /** The turn leaves the task running: its calls succeed, or it is refused repairably while a repair and a turn are
      left. */
  ghost predicate GoesOn(t: Dag.Task, c: Context, script: Script, turn: nat, tally: Tally) {
    || Working(t, c, script, turn, tally.calls)
    || (Refused(t, c, script, turn, tally.calls, true) && RepairLeft(t, tally.rejections, turn))
  }

  /** What the first n calls of a turn returned. */
  function Gathered(script: Script, turn: nat, n: nat): set<string> {
    if n == 0 then {}
    else
      Gathered(script, turn, n - 1)
      + (var r := script.tool(turn, n - 1); if r.ToolResult? then Elements(r.sources) else {})
  }

  function Next(t: Dag.Task, c: Context, script: Script, turn: nat, tally: Tally): Tally {
    var a := script.reply(turn);
    if !Calling(t, c, a, tally.calls) then tally.(rejections := tally.rejections + 1)
    else
      var n := |a.calls|;
      var good := Successes(c, script, turn, 0, n);
      Tally(tally.calls + (if good < n then good + 1 else n), tally.rejections + (if good < n then 1 else 0),
            tally.sources + Gathered(script, turn, good))
  }

  function TallyAfter(t: Dag.Task, c: Context, script: Script, n: nat): Tally {
    if n == 0 then Tally(0, 0, {}) else Next(t, c, script, n, TallyAfter(t, c, script, n - 1))
  }

  ghost predicate GoesOnAt(t: Dag.Task, c: Context, script: Script, n: nat) {
    GoesOn(t, c, script, n + 1, TallyAfter(t, c, script, n))
  }

  /** The first n turns all leave the task running. */
  ghost predicate RunsOn(t: Dag.Task, c: Context, script: Script, n: nat) {
    n <= t.maxTurns && forall k: nat :: k < n ==> GoesOnAt(t, c, script, k)
  }

  /** Turn n + 1 is reached and brings an acceptable final action. */
  ghost predicate EndsWellAfter(t: Dag.Task, c: Context, script: Script, n: nat) {
    n < t.maxTurns && RunsOn(t, c, script, n) && AcceptableFinal(c, script.reply(n + 1))
  }

  ghost predicate Agrees(s: Loop, tally: Tally) {
    && s.outcome.toolCalls == tally.calls && Rejections(s.steps) == tally.rejections
    && Elements(s.outcome.sources) == tally.sources
  }

  // ---------- Preflight, read call by call ----------

  lemma CheckReads(t: Dag.Task, allowed: seq<string>, p: Proposal)
    ensures CheckCall(t, allowed, p).None? <==> Startable(t, allowed, p)
    ensures CheckCall(t, allowed, p).Some? ==>
      (CheckCall(t, allowed, p).value.repairable <==> Correctable(t, allowed, p))
  {
    TrustedElements(p.proposed, allowed);
    TrustedElements(p.canonical, allowed);
  }

  lemma TrustedElements(sources: Option<seq<string>>, allowed: seq<string>)
    ensures Trusted(sources, allowed) <==> sources.Some? && Elements(sources.value) <= Elements(allowed)
  {
    if sources.Some? && Elements(sources.value) <= Elements(allowed) {
      forall x | x in sources.value ensures x in allowed { assert x in Elements(allowed); }
    }
  }

  lemma PreflightReads(t: Dag.Task, allowed: seq<string>, calls: seq<Proposal>)
    ensures Preflight(t, allowed, calls).None? <==> AllStartable(t, allowed, calls)
    ensures Preflight(t, allowed, calls).Some? ==>
      (Preflight(t, allowed, calls).value.repairable <==> CorrectableCalls(t, allowed, calls))
  {
    forall p ensures CheckCall(t, allowed, p).None? <==> Startable(t, allowed, p) { CheckReads(t, allowed, p); }
    if Preflight(t, allowed, calls).Some? {
      var k: nat :|
        FirstRefused(t, allowed, calls, k) && Preflight(t, allowed, calls) == CheckCall(t, allowed, calls[k]);
      CheckReads(t, allowed, calls[k]);
      assert FirstUnstartable(t, allowed, calls, k);
      if j: nat :| FirstUnstartable(t, allowed, calls, j) && Correctable(t, allowed, calls[j]) { assert j == k; }
    }
  }

  // ---------- One turn ----------

  /** How a refusal leaves the loop. */
  ghost predicate AfterRefusal(t: Dag.Task, s: Loop, turn: nat, started: nat, repairable: bool, s': Loop) {
    && (!s'.ended <==> repairable && RepairLeft(t, Rejections(s.steps), turn))
    && (s'.ended ==> !s'.raised && s'.outcome.status.Failed?)
    && Rejections(s'.steps) == Rejections(s.steps) + 1
    && s'.outcome.toolCalls == s.outcome.toolCalls + started && s'.outcome.sources == s.outcome.sources
  }

  lemma RefusalOutcome(t: Dag.Task, c: Context, s: Loop, turn: nat, output: Option<string>, r: Refusal)
    requires Active(t, c, s, Running)
    ensures AfterRefusal(t, s, turn, 0, r.repairable, RejectAction(t, s, turn, output, r))
  {
    var s0 := Emit(s, Reject(output, r.message));
    assert s0.steps[..|s.steps|] == s.steps;
    var s1 := FailTask(s0, r.message);
    assert s1.steps[..|s0.steps|] == s0.steps;
  }

  /** What a degraded ending reports. */
  function DegradedNote(c: Context): Option<string> {
    if c.ancestry == [] then None else Some("completed with degraded dependencies: " + Join(c.ancestry))
  }

  /** How an accepted final action leaves the loop. */
  ghost predicate Delivered(c: Context, s: Loop, payload: string, cited: seq<string>, s': Loop) {
    && s'.ended && !s'.raised
    && s'.outcome.status == (if c.ancestry == [] then TaskStatus.Complete else Partial)
    && s'.outcome.output == Some(payload) && s'.outcome.error == DegradedNote(c)
    && Elements(s'.outcome.sources) == Elements(s.outcome.sources) + Elements(cited)
    && s'.outcome.toolCalls == s.outcome.toolCalls && Rejections(s'.steps) == Rejections(s.steps)
  }

  lemma FinalOutcome(t: Dag.Task, c: Context, s: Loop, turn: nat, a: Reply)
    requires a.FinalAction? && Active(t, c, s, Running)
    ensures var s' := PlayFinal(t, c, s, turn, a);
      if AcceptableFinal(c, a) then Delivered(c, s, a.payload, a.citations.value, s')
      else AfterRefusal(t, s, turn, 0, a.schemaError.Some?, s')
  {
    TrustedElements(a.citations, c.allowed);
    if AcceptableFinal(c, a) {
      CompleteOutcome(c, s, a.payload, a.citations.value);
    } else if a.schemaError.Some? {
      RefusalOutcome(t, c, s, turn, Some(a.payload), Refusal(a.schemaError.value, true));
    } else if a.citations.None? {
      RefusalOutcome(t, c, s, turn, Some(a.payload), Refusal("invalid_citations", false));
    } else {
      RefusalOutcome(t, c, s, turn, Some(a.payload), Refusal("final output cites untrusted source IDs", false));
    }
  }

  lemma CompleteOutcome(c: Context, s: Loop, payload: string, cited: seq<string>)
    requires !s.raised
    ensures Delivered(c, s, payload, cited, TurnLoop.Complete(c, s, payload, cited))
  {
    var end := TurnLoop.Complete(c, s, payload, cited);
    assert end.steps[..|s.steps|] == s.steps;
    assert Elements(s.outcome.sources + cited) == Elements(s.outcome.sources) + Elements(cited);
  }

  // ---------- The calls of a turn ----------

  lemma {:induction false} CallsSplit(
      t: Dag.Task, c: Context, script: Script, s: Loop, turn: nat, text: string, k: nat, i: nat, n: nat)
    requires k <= i <= n && forall j: nat :: k <= j < i ==> Succeeds(c, script.tool(turn, j))
    ensures PlayCalls(t, c, script, s, turn, text, k, n) ==
      PlayCalls(t, c, script, PlayCalls(t, c, script, s, turn, text, k, i), turn, text, i, n)
    decreases i - k
  {
    if k < i {
      var (s', more) := PlayCall(t, c, s, turn, text, script.tool(turn, k));
      assert Succeeds(c, script.tool(turn, k)) && more;
      CallsSplit(t, c, script, s', turn, text, k + 1, i, n);
    }
  }

  lemma CallSucceeds(t: Dag.Task, c: Context, s: Loop, turn: nat, text: string, r: ToolReply)
    requires Active(t, c, s, Running) && s.outcome.toolCalls < t.maxToolCalls && Succeeds(c, r)
    ensures var (s', more) := PlayCall(t, c, s, turn, text, r);
      && more && Active(t, c, s', Running)
      && Agrees(s', Tally(s.outcome.toolCalls + 1, Rejections(s.steps),
                          Elements(s.outcome.sources) + Elements(r.sources)))
  {
    CallSound(t, c, s, turn, text, r);
    var s0 := Emit(s.(outcome := s.outcome.(toolCalls := s.outcome.toolCalls + 1)), ToolStart);
    assert s0.steps[..|s.steps|] == s.steps;
    var s1 := Emit(s0, ToolDone);
    assert s1.steps[..|s0.steps|] == s0.steps;
    assert Elements(s1.outcome.sources + r.sources) == Elements(s1.outcome.sources) + Elements(r.sources);
  }

  /** The first i calls, when they succeed. */
  lemma CallsSucceed(t: Dag.Task, c: Context, script: Script, s: Loop, turn: nat, text: string, n: nat)
    requires Active(t, c, s, Running) && s.outcome.toolCalls + n <= t.maxToolCalls
    requires forall j: nat :: j < n ==> Succeeds(c, script.tool(turn, j))
    ensures var s' := PlayCalls(t, c, script, s, turn, text, 0, n);
      && Active(t, c, s', Running)
      && Agrees(s', Tally(s.outcome.toolCalls + n, Rejections(s.steps),
                          Elements(s.outcome.sources) + Gathered(script, turn, n)))
  {
    for i := 0 to n
      invariant var s' := PlayCalls(t, c, script, s, turn, text, 0, i);
        && Active(t, c, s', Running)
        && Agrees(s', Tally(s.outcome.toolCalls + i, Rejections(s.steps),
                            Elements(s.outcome.sources) + Gathered(script, turn, i)))
    {
      var s' := PlayCalls(t, c, script, s, turn, text, 0, i);
      CallsSplit(t, c, script, s, turn, text, 0, i, i + 1);
      CallSucceeds(t, c, s', turn, text, script.tool(turn, i));
      LastCall(t, c, script, s', turn, text, i);
    }
  }

  lemma LastCall(t: Dag.Task, c: Context, script: Script, s: Loop, turn: nat, text: string, i: nat)
    ensures PlayCalls(t, c, script, s, turn, text, i, i + 1) == PlayCall(t, c, s, turn, text, script.tool(turn, i)).0
  {
    var (s', more) := PlayCall(t, c, s, turn, text, script.tool(turn, i));
    if more { assert PlayCalls(t, c, script, s', turn, text, i + 1, i + 1) == s'; }
  }

  lemma ToolRefusalOutcome(t: Dag.Task, c: Context, s: Loop, turn: nat, text: string, r: Refusal)
    requires Active(t, c, s, Running) && s.outcome.toolCalls < t.maxToolCalls
    ensures var s0 := Emit(s.(outcome := s.outcome.(toolCalls := s.outcome.toolCalls + 1)), ToolStart);
      AfterRefusal(t, s, turn, 1, r.repairable, RejectAction(t, Emit(s0, ToolReject(r.message)), turn, Some(text), r))
  {
    ToolStartSound(t, c, s);
    var s0 := Emit(s.(outcome := s.outcome.(toolCalls := s.outcome.toolCalls + 1)), ToolStart);
    assert s0.steps[..|s.steps|] == s.steps;
    EmitStep(t, s0, ToolReject(r.message));
    RefusalOutcome(t, c, Emit(s0, ToolReject(r.message)), turn, Some(text), r);
  }

  /** How a call that does not succeed leaves the loop. */
  ghost predicate AfterStop(t: Dag.Task, c: Context, s: Loop, turn: nat, r: ToolReply, s': Loop) {
    if ToolRefuses(c, r) then AfterRefusal(t, s, turn, 1, r.refusal.repairable, s')
    else s'.ended && (s'.raised <==> r.ToolEscapes?) && (!s'.raised ==> s'.outcome.status.Failed?)
  }

  lemma CallStops(t: Dag.Task, c: Context, s: Loop, turn: nat, text: string, r: ToolReply)
    requires Active(t, c, s, Running) && s.outcome.toolCalls < t.maxToolCalls && !Succeeds(c, r)
    ensures AfterStop(t, c, s, turn, r, PlayCall(t, c, s, turn, text, r).0)
  {
    if r.ToolResult? {
      TrustedElements(Some(r.sources), c.allowed);
      if ToolRefuses(c, r) { ToolRefusalOutcome(t, c, s, turn, text, r.refusal); }
    }
  }

  /** How the calls of a turn leave the loop. */
  ghost predicate AfterCalls(t: Dag.Task, c: Context, script: Script, s: Loop, turn: nat, n: nat, s': Loop) {
    var good := Successes(c, script, turn, 0, n);
    && (good == n ==> !s'.ended)
    && (good < n && !ToolRefuses(c, script.tool(turn, good)) ==>
      s'.ended && (s'.raised <==> script.tool(turn, good).ToolEscapes?) && (!s'.raised ==> s'.outcome.status.Failed?))
    && (good < n && ToolRefuses(c, script.tool(turn, good)) ==>
      && (!s'.ended <==> script.tool(turn, good).refusal.repairable && RepairLeft(t, Rejections(s.steps), turn))
      && (s'.ended ==> !s'.raised && s'.outcome.status.Failed?))
    && (!s'.ended ==>
      Agrees(s', Tally(s.outcome.toolCalls + (if good < n then good + 1 else n),
                       Rejections(s.steps) + (if good < n then 1 else 0),
                       Elements(s.outcome.sources) + Gathered(script, turn, good))))
  }

  lemma CallsOutcome(t: Dag.Task, c: Context, script: Script, s: Loop, turn: nat, text: string, n: nat)
    requires Active(t, c, s, Running) && s.outcome.toolCalls + n <= t.maxToolCalls
    ensures AfterCalls(t, c, script, s, turn, n, PlayCalls(t, c, script, s, turn, text, 0, n))
  {
    var good := Successes(c, script, turn, 0, n);
    CallsSucceed(t, c, script, s, turn, text, good);
    if good < n {
      var s0 := PlayCalls(t, c, script, s, turn, text, 0, good);
      CallsSplit(t, c, script, s, turn, text, 0, good, n);
      CallStops(t, c, s0, turn, text, script.tool(turn, good));
      FirstCall(t, c, script, s0, turn, text, good, n);
    }
  }

  lemma FirstCall(t: Dag.Task, c: Context, script: Script, s: Loop, turn: nat, text: string, i: nat, n: nat)
    requires i < n && !Succeeds(c, script.tool(turn, i))
    ensures PlayCalls(t, c, script, s, turn, text, i, n) == PlayCall(t, c, s, turn, text, script.tool(turn, i)).0
  {
  }

  /** Everything a turn may do to a running task. */
  ghost predicate AfterTurn(t: Dag.Task, c: Context, script: Script, s: Loop, turn: nat, tally: Tally, s': Loop) {
    && (!s'.ended <==> GoesOn(t, c, script, turn, tally))
    && (!s'.ended ==> Agrees(s', Next(t, c, script, turn, tally)))
    && (AcceptableFinal(c, script.reply(turn)) ==>
      Delivered(c, s, script.reply(turn).payload, script.reply(turn).citations.value, s'))
    && (s'.ended && !s'.raised && !AcceptableFinal(c, script.reply(turn)) ==> s'.outcome.status.Failed?)
  }

  lemma RefusedAfterTurn(
      t: Dag.Task, c: Context, script: Script, s: Loop, turn: nat, tally: Tally, repairable: bool, s': Loop)
    requires Agrees(s, tally) && AfterRefusal(t, s, turn, 0, repairable, s')
    requires Refused(t, c, script, turn, tally.calls, true) == repairable
    requires !Calling(t, c, script.reply(turn), tally.calls) && !AcceptableFinal(c, script.reply(turn))
    ensures AfterTurn(t, c, script, s, turn, tally, s')
  {
  }

  lemma CalledAfterTurn(t: Dag.Task, c: Context, script: Script, s: Loop, turn: nat, tally: Tally, s': Loop)
    requires Agrees(s, tally) && Calling(t, c, script.reply(turn), tally.calls)
    requires AfterCalls(t, c, script, s, turn, |script.reply(turn).calls|, s')
    ensures AfterTurn(t, c, script, s, turn, tally, s')
  {
  }

  lemma ToolsOutcome(t: Dag.Task, c: Context, script: Script, s: Loop, turn: nat, tally: Tally)
    requires script.reply(turn).ToolCallsAction? && Active(t, c, s, Running) && Agrees(s, tally)
    ensures AfterTurn(t, c, script, s, turn, tally, PlayTools(t, c, script, s, turn, script.reply(turn)))
  {
    var a := script.reply(turn);
    var limit, refusal := CallLimit(t, a.calls), Preflight(t, c.allowed, a.calls);
    PreflightReads(t, c.allowed, a.calls);
    if limit.Some? {
      RefusalOutcome(t, c, s, turn, Some(a.text), limit.value);
      RefusedAfterTurn(t, c, script, s, turn, tally, a.calls == [], PlayTools(t, c, script, s, turn, a));
    } else if s.outcome.toolCalls + |a.calls| > t.maxToolCalls {
      RefusalOutcome(t, c, s, turn, Some(a.text), Refusal("tool-call budget exceeded", false));
      RefusedAfterTurn(t, c, script, s, turn, tally, false, PlayTools(t, c, script, s, turn, a));
    } else if refusal.Some? {
      RefusalOutcome(t, c, s, turn, Some(a.text), refusal.value);
      RefusedAfterTurn(t, c, script, s, turn, tally, refusal.value.repairable, PlayTools(t, c, script, s, turn, a));
    } else {
      CallsOutcome(t, c, script, s, turn, a.text, |a.calls|);
      CalledAfterTurn(t, c, script, s, turn, tally, PlayTools(t, c, script, s, turn, a));
    }
  }

  /** The loop once the turn's answer has been journaled. */
  function Answered(s: Loop, turn: nat, a: Reply): Loop {
    Emit(Emit(s.(outcome := s.outcome.(turns := turn)), TurnStart), TurnDone(Some(ReplyText(a))))
  }

  lemma AnswerIsActive(t: Dag.Task, c: Context, s: Loop, turn: nat, a: Reply, tally: Tally)
    requires Active(t, c, s, Running) && s.outcome.turns + 1 == turn <= t.maxTurns && Agrees(s, tally)
    ensures Active(t, c, Answered(s, turn, a), Running) && Agrees(Answered(s, turn, a), tally)
  {
    var counted := s.(outcome := s.outcome.(turns := turn));
    EmitStep(t, counted, TurnStart);
    EmitStep(t, Emit(counted, TurnStart), TurnDone(Some(ReplyText(a))));
  }

  lemma AnswerPassesOn(
      t: Dag.Task, c: Context, script: Script, s: Loop, s0: Loop, turn: nat, tally: Tally, s': Loop)
    requires Agrees(s, tally) && Agrees(s0, tally) && AfterTurn(t, c, script, s0, turn, tally, s')
    ensures AfterTurn(t, c, script, s, turn, tally, s')
  {
  }

  /** From any state of the loop: which answers leave the task running, complete it, or fail it. */
  lemma TurnFollowsTally(t: Dag.Task, c: Context, script: Script, s: Loop, turn: nat, tally: Tally)
    requires Active(t, c, s, Running) && s.outcome.turns + 1 == turn <= t.maxTurns && Agrees(s, tally)
    ensures AfterTurn(t, c, script, s, turn, tally, PlayTurn(t, c, script, s, turn))
  {
    var a := script.reply(turn);
    var s' := PlayTurn(t, c, script, s, turn);
    var s1 := Answered(s, turn, a);
    AnswerIsActive(t, c, s, turn, a, tally);
    match a {
      case Escapes(_, _) =>
      case InvalidResult(message) =>
        RefusalOutcome(t, c, s1, turn, Some(""), Refusal(message, false));
        RefusedAfterTurn(t, c, script, s1, turn, tally, false, s');
        AnswerPassesOn(t, c, script, s, s1, turn, tally, s');
      case Unparsable(text, refusal) =>
        RefusalOutcome(t, c, s1, turn, Some(text), refusal);
        RefusedAfterTurn(t, c, script, s1, turn, tally, refusal.repairable, s');
        AnswerPassesOn(t, c, script, s, s1, turn, tally, s');
      case FinalAction(_, _, _, _) => FinalFollowsTally(t, c, script, s, s1, turn, tally);
      case ToolCallsAction(_, _) =>
        ToolsOutcome(t, c, script, s1, turn, tally);
        AnswerPassesOn(t, c, script, s, s1, turn, tally, s');
    }
  }

  lemma FinalFollowsTally(t: Dag.Task, c: Context, script: Script, s: Loop, s1: Loop, turn: nat, tally: Tally)
    requires script.reply(turn).FinalAction? && Active(t, c, s1, Running) && Agrees(s, tally) && Agrees(s1, tally)
    ensures AfterTurn(t, c, script, s, turn, tally, PlayFinal(t, c, s1, turn, script.reply(turn)))
  {
    var a := script.reply(turn);
    var s' := PlayFinal(t, c, s1, turn, a);
    FinalOutcome(t, c, s1, turn, a);
    if !AcceptableFinal(c, a) {
      RefusedAfterTurn(t, c, script, s1, turn, tally, a.schemaError.Some?, s');
      AnswerPassesOn(t, c, script, s, s1, turn, tally, s');
    }
  }

  // ---------- The whole loop ----------

  function StateAfter(t: Dag.Task, c: Context, script: Script, n: nat): Loop {
    if n == 0 then Started(c) else PlayTurn(t, c, script, StateAfter(t, c, script, n - 1), n)
  }

  /** The loop after n turns, each of which left the task running. */
  ghost predicate StillOn(t: Dag.Task, c: Context, script: Script, n: nat, s: Loop) {
    && Active(t, c, s, Running) && Agrees(s, TallyAfter(t, c, script, n)) && s.outcome.turns == n
    && TaskLoop(t, c, script) == PlayTurns(t, c, script, s, n + 1)
  }

  lemma NextStillOn(t: Dag.Task, c: Context, script: Script, n: nat, s: Loop)
    requires n < t.maxTurns && StillOn(t, c, script, n, s) && GoesOnAt(t, c, script, n)
    ensures StillOn(t, c, script, n + 1, PlayTurn(t, c, script, s, n + 1))
  {
    TurnFollowsTally(t, c, script, s, n + 1, TallyAfter(t, c, script, n));
    TurnSound(t, c, script, s, n + 1);
  }

  /** After n turns that go on, by the tally, the loop is still running and agrees with the tally. */
  lemma AfterTurns(t: Dag.Task, c: Context, script: Script, n: nat)
    requires RunsOn(t, c, script, n)
    ensures StillOn(t, c, script, n, StateAfter(t, c, script, n))
  {
    for k := 0 to n
      invariant StillOn(t, c, script, k, StateAfter(t, c, script, k))
    {
      NextStillOn(t, c, script, k, StateAfter(t, c, script, k));
    }
  }

  /** A loop that an accepted final action ended in turn n + 1. */
  ghost predicate EndedWell(t: Dag.Task, c: Context, script: Script, n: nat, end: Loop) {
    var a, tally := script.reply(n + 1), TallyAfter(t, c, script, n);
    && a.FinalAction? && a.citations.Some? && end.ended && !end.raised
    && end.outcome.status == (if c.ancestry == [] then TaskStatus.Complete else Partial)
    && end.outcome.output == Some(a.payload) && end.outcome.error == DegradedNote(c)
    && end.outcome.turns == n + 1 && end.outcome.toolCalls == tally.calls && Rejections(end.steps) == tally.rejections
    && Elements(end.outcome.sources) == tally.sources + Elements(a.citations.value)
  }

  /** A task reached by an acceptable final action ends with it: COMPLETE, or PARTIAL with a degraded ancestry, with the
      action's payload, and with the sources of its tool calls and its citations. */
  lemma FinalActionsEndWell(t: Dag.Task, c: Context, script: Script, n: nat)
    requires EndsWellAfter(t, c, script, n)
    ensures EndedWell(t, c, script, n, TaskLoop(t, c, script))
  {
    var s := StateAfter(t, c, script, n);
    AfterTurns(t, c, script, n);
    TurnFollowsTally(t, c, script, s, n + 1, TallyAfter(t, c, script, n));
    TurnSound(t, c, script, s, n + 1);
    var s' := PlayTurn(t, c, script, s, n + 1);
    assert PlayTurns(t, c, script, s', n + 2) == s';
  }

  predicate Succeeded(s: Loop) {
    s.ended && !s.raised && s.outcome.status.Success()
  }

  lemma {:induction false} SuccessComes(t: Dag.Task, c: Context, script: Script, n: nat) returns (k: nat)
    requires RunsOn(t, c, script, n) && Succeeded(TaskLoop(t, c, script))
    ensures EndsWellAfter(t, c, script, k)
    decreases t.maxTurns - n
  {
    var s := StateAfter(t, c, script, n);
    AfterTurns(t, c, script, n);
    if n < t.maxTurns && AcceptableFinal(c, script.reply(n + 1)) {
      k := n;
    } else if n < t.maxTurns && GoesOnAt(t, c, script, n) {
      OneMoreRun(t, c, script, n);
      k := SuccessComes(t, c, script, n + 1);
    } else {
      NoSuccessFrom(t, c, script, n, s);
      assert false;
    }
  }

  lemma OneMoreRun(t: Dag.Task, c: Context, script: Script, n: nat)
    requires n < t.maxTurns && RunsOn(t, c, script, n) && GoesOnAt(t, c, script, n)
    ensures RunsOn(t, c, script, n + 1)
  {
  }

  lemma NoSuccessFrom(t: Dag.Task, c: Context, script: Script, n: nat, s: Loop)
    requires StillOn(t, c, script, n, s) && n <= t.maxTurns
    requires n < t.maxTurns ==> !AcceptableFinal(c, script.reply(n + 1)) && !GoesOnAt(t, c, script, n)
    ensures !Succeeded(TaskLoop(t, c, script))
  {
    if n < t.maxTurns {
      TurnFollowsTally(t, c, script, s, n + 1, TallyAfter(t, c, script, n));
      var s' := PlayTurn(t, c, script, s, n + 1);
      assert PlayTurns(t, c, script, s', n + 2) == s';
    }
  }

  /** A task ends well exactly when the turns before some turn within the limit all go on, by the tally, and that turn
      brings an acceptable final action. */
  lemma SucceedsIff(t: Dag.Task, c: Context, script: Script)
    ensures Succeeded(TaskLoop(t, c, script)) <==> exists n: nat :: EndsWellAfter(t, c, script, n)
  {
    if Succeeded(TaskLoop(t, c, script)) {
      var k := SuccessComes(t, c, script, 0);
    }
    if n: nat :| EndsWellAfter(t, c, script, n) { FinalActionsEndWell(t, c, script, n); }
  }

  // ---------- Repairs ----------

  /** Refused repairably, before any call of the turn starts. */
  ghost predicate PlainlyRefused(t: Dag.Task, c: Context, script: Script, turn: nat) {
    Refused(t, c, script, turn, 0, true) && !Calling(t, c, script.reply(turn), 0)
  }

  ghost predicate AllRefused(t: Dag.Task, c: Context, script: Script, k: nat) {
    forall j: nat :: 1 <= j <= k ==> PlainlyRefused(t, c, script, j)
  }

  lemma {:induction false} RefusalsTally(t: Dag.Task, c: Context, script: Script, k: nat)
    requires AllRefused(t, c, script, k)
    ensures TallyAfter(t, c, script, k) == Tally(0, k, {})
  {
    if k > 0 {
      RefusalsTally(t, c, script, k - 1);
      assert PlainlyRefused(t, c, script, k);
    }
  }

  lemma RefusalGoesOn(t: Dag.Task, c: Context, script: Script, k: nat, n: nat)
    requires AllRefused(t, c, script, n) && k < n
    ensures GoesOnAt(t, c, script, k) <==> k < t.repairBudget && k + 1 < t.maxTurns
  {
    RefusalsTally(t, c, script, k);
    assert PlainlyRefused(t, c, script, k + 1);
  }

  lemma OneFinalAction(t: Dag.Task, c: Context, script: Script, k: nat, n: nat)
    requires AllRefused(t, c, script, k) && AcceptableFinal(c, script.reply(k + 1)) && EndsWellAfter(t, c, script, n)
    ensures n == k
  {
    assert k < n ==> GoesOnAt(t, c, script, k);
    assert n < k ==> PlainlyRefused(t, c, script, n + 1);
  }

  /** Refusals followed by an acceptable final action end well exactly when the repair budget pays for them and a turn
      is left for the action. */
  lemma RepairsSufficeIff(t: Dag.Task, c: Context, script: Script, k: nat)
    requires AllRefused(t, c, script, k) && AcceptableFinal(c, script.reply(k + 1))
    ensures Succeeded(TaskLoop(t, c, script)) <==> k <= t.repairBudget && k < t.maxTurns
    ensures k <= t.repairBudget && k < t.maxTurns ==> EndedWell(t, c, script, k, TaskLoop(t, c, script))
    ensures TallyAfter(t, c, script, k) == Tally(0, k, {})
  {
    SucceedsIff(t, c, script);
    RefusalsTally(t, c, script, k);
    forall j: nat | j < k ensures GoesOnAt(t, c, script, j) <==> j < t.repairBudget && j + 1 < t.maxTurns {
      RefusalGoesOn(t, c, script, j, k);
    }
    if k <= t.repairBudget && k < t.maxTurns {
      assert EndsWellAfter(t, c, script, k);
      FinalActionsEndWell(t, c, script, k);
    }
    if n: nat :| EndsWellAfter(t, c, script, n) {
      OneFinalAction(t, c, script, k, n);
      if k > 0 {
        assert GoesOnAt(t, c, script, k - 1);
        RefusalGoesOn(t, c, script, k - 1, k);
      }
    }
  }

  /** Turns that all go on until none is left fail the task. */
  lemma OutOfTurns(t: Dag.Task, c: Context, script: Script)
    requires RunsOn(t, c, script, t.maxTurns)
    ensures var end := TaskLoop(t, c, script);
      && end.ended && !end.raised && end.outcome.status.Failed? && end.outcome.turns == t.maxTurns
      && end.outcome.error == Some(ExhaustedMessage())
  {
    AfterTurns(t, c, script, t.maxTurns);
  }

  // ---------- What is journaled of an answer ----------

  /** The event at place k of a turn that began with n events. */
  predicate EventAt(s: Loop, n: nat, k: nat, m: Move) {
    n + k < |s.steps| && s.steps[n + k].move == m
  }

  predicate Extends(s: Loop, s': Loop) {
    s.steps <= s'.steps
  }

  lemma Further(s: Loop, s': Loop, s'': Loop)
    requires Extends(s, s') && Extends(s', s'')
    ensures Extends(s, s'')
  {
  }

  lemma FailExtends(s: Loop, message: string)
    ensures Extends(s, FailTask(s, message))
  {
  }

  lemma RejectExtends(t: Dag.Task, s: Loop, turn: nat, output: Option<string>, r: Refusal)
    ensures Extends(s, RejectAction(t, s, turn, output, r))
  {
    var s0 := Emit(s, Reject(output, r.message));
    FailExtends(s0, r.message);
    assert Extends(s, s0);
  }

  lemma CallExtends(t: Dag.Task, c: Context, s: Loop, turn: nat, text: string, r: ToolReply)
    ensures Extends(s, PlayCall(t, c, s, turn, text, r).0)
  {
    var s0 := Emit(s.(outcome := s.outcome.(toolCalls := s.outcome.toolCalls + 1)), ToolStart);
    assert Extends(s, s0);
    match r {
      case ToolEscapes(_) =>
      case ExecutionError(message) => FailExtends(Emit(s0, ToolFail(message)), message);
      case ToolResult(_, _, refusal) =>
        var untrusted := "tool result returned a source ID outside the task allowlist";
        FailExtends(Emit(s0, ToolFail(untrusted)), untrusted);
        RejectExtends(t, Emit(s0, ToolReject(refusal.message)), turn, Some(text), refusal);
    }
  }

  lemma {:induction false} CallsExtend(
      t: Dag.Task, c: Context, script: Script, s: Loop, turn: nat, text: string, k: nat, n: nat)
    requires k <= n
    ensures Extends(s, PlayCalls(t, c, script, s, turn, text, k, n))
    decreases n - k
  {
    if k < n {
      var (s', more) := PlayCall(t, c, s, turn, text, script.tool(turn, k));
      CallExtends(t, c, s, turn, text, script.tool(turn, k));
      if more {
        CallsExtend(t, c, script, s', turn, text, k + 1, n);
        Further(s, s', PlayCalls(t, c, script, s', turn, text, k + 1, n));
      }
    }
  }

  lemma ToolsExtend(t: Dag.Task, c: Context, script: Script, s: Loop, turn: nat, a: Reply)
    requires a.ToolCallsAction?
    ensures Extends(s, PlayTools(t, c, script, s, turn, a))
  {
    var limit, refusal := CallLimit(t, a.calls), Preflight(t, c.allowed, a.calls);
    if limit.Some? {
      RejectExtends(t, s, turn, Some(a.text), limit.value);
    } else if s.outcome.toolCalls + |a.calls| > t.maxToolCalls {
      RejectExtends(t, s, turn, Some(a.text), Refusal("tool-call budget exceeded", false));
    } else if refusal.Some? {
      RejectExtends(t, s, turn, Some(a.text), refusal.value);
    } else {
      CallsExtend(t, c, script, s, turn, a.text, 0, |a.calls|);
    }
  }

  lemma FinalExtends(t: Dag.Task, c: Context, s: Loop, turn: nat, a: Reply)
    requires a.FinalAction?
    ensures Extends(s, PlayFinal(t, c, s, turn, a))
  {
    forall r | true ensures Extends(s, RejectAction(t, s, turn, Some(a.payload), r)) {
      RejectExtends(t, s, turn, Some(a.payload), r);
    }
  }

  lemma TurnExtends(t: Dag.Task, c: Context, script: Script, s: Loop, turn: nat)
    requires !script.reply(turn).Escapes?
    ensures Extends(Answered(s, turn, script.reply(turn)), PlayTurn(t, c, script, s, turn))
  {
    var a := script.reply(turn);
    var s1 := Answered(s, turn, a);
    match a {
      case InvalidResult(message) => RejectExtends(t, s1, turn, Some(""), Refusal(message, false));
      case Unparsable(text, refusal) => RejectExtends(t, s1, turn, Some(text), refusal);
      case FinalAction(_, _, _, _) => FinalExtends(t, c, s1, turn, a);
      case ToolCallsAction(_, _) => ToolsExtend(t, c, script, s1, turn, a);
    }
  }

  /** A turn that no exception cuts short journals its request and the text of the answer. */
  lemma AnswersAreJournaled(t: Dag.Task, c: Context, script: Script, s: Loop, turn: nat)
    requires !script.reply(turn).Escapes?
    ensures var a, s', n := script.reply(turn), PlayTurn(t, c, script, s, turn), |s.steps|;
      && Extends(s, s') && EventAt(s', n, 0, TurnStart)
      && EventAt(s', n, 1, TurnDone(Some(if a.InvalidResult? then "" else a.text)))
  {
    TurnExtends(t, c, script, s, turn);
    AnswerEvents(s, turn, script.reply(turn), PlayTurn(t, c, script, s, turn));
  }

  lemma AnswerEvents(s: Loop, turn: nat, a: Reply, s': Loop)
    requires Extends(Answered(s, turn, a), s')
    ensures Extends(s, s') && EventAt(s', |s.steps|, 0, TurnStart)
    ensures EventAt(s', |s.steps|, 1, TurnDone(Some(ReplyText(a))))
  {
  }

  /** A started tool is journaled with how it ended; a failure ends the task with its message, a refusal rejects the
      action, and only a success passes on to the next call. */
  lemma CallsAreJournaled(t: Dag.Task, c: Context, s: Loop, turn: nat, text: string, r: ToolReply)
    requires !r.ToolEscapes?
    ensures var (s', more) := PlayCall(t, c, s, turn, text, r); var n := |s.steps|;
      && EventAt(s', n, 0, ToolStart) && s'.outcome.toolCalls == s.outcome.toolCalls + 1
      && (more <==> r.ToolResult? && r.ok && Trusted(Some(r.sources), c.allowed))
      && (more ==> EventAt(s', n, 1, ToolDone) && |s'.steps| == n + 2)
      && (r.ToolResult? && !r.ok && Trusted(Some(r.sources), c.allowed) ==>
          EventAt(s', n, 1, ToolReject(r.refusal.message)) && EventAt(s', n, 2, Reject(Some(text), r.refusal.message)))
      && (r.ExecutionError? ==> FailsWith(s', n + 1, r.message))
      && (r.ToolResult? && !Trusted(Some(r.sources), c.allowed) ==>
          s'.outcome.error.Some? && FailsWith(s', n + 1, s'.outcome.error.value))
  {
    if r.ToolResult? { TrustedElements(Some(r.sources), c.allowed); }
  }

  predicate FailsWith(s: Loop, n: nat, message: string) {
    && s.ended && s.outcome.status == Failed && s.outcome.error == Some(message)
    && EventAt(s, n, 0, ToolFail(message)) && EventAt(s, n, 1, Fail(None, message)) && |s.steps| == n + 2
  }

  /** A rejected answer is journaled with its reason, and a task it fails ends with the same one. */
  lemma RejectionsAreJournaled(
      t: Dag.Task, c: Context, script: Script, s: Loop, turn: nat, reason: Refusal, text: string)
    requires match script.reply(turn)
      case InvalidResult(message) => reason == Refusal(message, false) && text == ""
      case Unparsable(output, refusal) => reason == refusal && text == output
      case FinalAction(_, payload, schemaError, _) =>
        schemaError.Some? && reason == Refusal(schemaError.value, true) && text == payload
      case _ => false
    ensures var s', n := PlayTurn(t, c, script, s, turn), |s.steps|;
      && EventAt(s', n, 2, Reject(Some(text), reason.message))
      && (s'.ended && !s.ended ==>
          EventAt(s', n, 3, Fail(None, reason.message)) && s'.outcome.error == Some(reason.message))
  {
  }
}
