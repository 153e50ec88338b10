/** The turn loop of one task (`_stream_task`): a concrete task body. Models and tools are arbitrary: a script says
    what they answer at each turn and call. */
module TurnLoop {
  import opened Common
  import opened Events
  import opened Workload
  import opened Reducer
  import opened Simulation
  import Dag

  // ---------- What models and tools may answer ----------

  /** The trusted input schema of a tool: missing, or what it says of the canonical arguments. */
  datatype Contract = Unavailable | Violated(message: string) | Met

  /** One proposed call. `proposed` and `canonical` are its source lists before and after controller binding
      (None when malformed), `binding` a refusal by the binding itself, `contract` the last check. */
  datatype Proposal = Proposal(
    name: string,
    proposed: Option<seq<string>>,
    binding: Option<Refusal>,
    canonical: Option<seq<string>>,
    contract: Contract)

  datatype Refusal = Refusal(message: string, repairable: bool)

  /** Where in a turn an exception strikes that no handler of the loop catches: before MODEL_TURN_STARTED, before
      MODEL_TURN_COMPLETED (the model itself, say), or while the answer is read (deeply nested JSON, say). */
  datatype EscapePoint = Unasked | Unanswered | Unread

  /** The same for a tool call: before TOOL_STARTED, before its end event, or after TOOL_REJECTED. */
  datatype CallPoint = Unstarted | Unreturned | Unhandled(message: string)

  datatype Reply =
    | Escapes(at: EscapePoint, text: string)
    | InvalidResult(message: string)
    | Unparsable(text: string, refusal: Refusal)
    | FinalAction(text: string, payload: string, schemaError: Option<string>, citations: Option<seq<string>>)
    | ToolCallsAction(text: string, calls: seq<Proposal>)

  datatype ToolReply =
    | ToolEscapes(point: CallPoint)
    | ExecutionError(message: string)
    | ToolResult(ok: bool, sources: seq<string>, refusal: Refusal)

  /** The answers, by turn, and by turn and call. */
  datatype Script = Script(reply: nat -> Reply, tool: (nat, nat) -> ToolReply)

  /** What the controller fixes before the first turn. */
  datatype Context = Context(allowed: seq<string>, ancestry: seq<string>)

  function ContextOf(t: Dag.Task, deps: seq<Outcome>, direct: seq<string>): Context
    requires |deps| == |t.deps|
  {
    Context(AllowedSources(direct, deps), DegradedAncestry(t.deps, deps))
  }

  // ---------- Preflight ----------

  /** `_preflight_calls` on one proposal: why it is refused, if it is. */
  function CheckCall(t: Dag.Task, allowed: seq<string>, p: Proposal): Option<Refusal> {
    if p.name !in t.tools then Some(Refusal("tool is not allowed for this task: " + p.name, false))
    else if p.proposed.None? || !(Elements(p.proposed.value) <= Elements(allowed)) then
      Some(Refusal("tool call cites untrusted source IDs", false))
    else if p.binding.Some? then p.binding
    else if p.canonical.None? || !(Elements(p.canonical.value) <= Elements(allowed)) then
      Some(Refusal("canonical tool call cites untrusted source IDs", false))
    else match p.contract
      case Unavailable => Some(Refusal("trusted input schema is unavailable for " + p.name, false))
      case Violated(message) => Some(Refusal(message, true))
      case Met => None
  }

  /** The k-th call is the first that is refused. */
  predicate FirstRefused(t: Dag.Task, allowed: seq<string>, calls: seq<Proposal>, k: nat) {
    && k < |calls| && CheckCall(t, allowed, calls[k]).Some?
    && forall j :: 0 <= j < k ==> CheckCall(t, allowed, calls[j]).None?
  }

  /** The first refusal among the calls; None when every call may start. */
  function Preflight(t: Dag.Task, allowed: seq<string>, calls: seq<Proposal>): (r: Option<Refusal>)
    ensures r.None? <==> forall p :: p in calls ==> CheckCall(t, allowed, p).None?
    ensures r.Some? ==> exists k: nat :: FirstRefused(t, allowed, calls, k) && r == CheckCall(t, allowed, calls[k])
  {
    if calls == [] then None
    else
      var first := CheckCall(t, allowed, calls[0]);
      if first.Some? then
        assert FirstRefused(t, allowed, calls, 0);
        first
      else
        LaterRefused(t, allowed, calls);
        Preflight(t, allowed, calls[1..])
  }

  lemma LaterRefused(t: Dag.Task, allowed: seq<string>, calls: seq<Proposal>)
    requires calls != [] && CheckCall(t, allowed, calls[0]).None?
    ensures forall k: nat :: FirstRefused(t, allowed, calls[1..], k) ==> FirstRefused(t, allowed, calls, k + 1)
  {
  }

  /** What `parse_action` adds to a well-formed tool action: at least one call, at most the turn's limit. */
  function CallLimit(t: Dag.Task, calls: seq<Proposal>): Option<Refusal> {
    if calls == [] then Some(Refusal("$.calls must contain at least one call", true))
    else if |calls| > t.maxCallsPerTurn then Some(Refusal("$.calls exceeds the limit", false))
    else None
  }

  // ---------- The loop as a function ----------

  datatype Loop = Loop(outcome: Outcome, repairs: nat, steps: seq<Step>, ended: bool, raised: bool)

  function Emit(s: Loop, m: Move): Loop {
    s.(steps := s.steps + [Step(m, s.outcome)])
  }

  /** An exception leaves the loop. */
  function Escape(s: Loop): Loop {
    s.(ended := true, raised := true)
  }

  /** `_fail_task` */
  function FailTask(s: Loop, message: string): Loop {
    Emit(s.(outcome := s.outcome.(status := Failed, error := Some(message))), Fail(None, message)).(ended := true)
  }

  predicate CanRepair(t: Dag.Task, s: Loop, turn: nat, r: Refusal) {
    r.repairable && s.repairs < t.repairBudget && turn < t.maxTurns
  }

  /** A rejected action either costs a repair and leaves the task running, or fails it. */
  function RejectAction(t: Dag.Task, s: Loop, turn: nat, output: Option<string>, r: Refusal): Loop {
    if CanRepair(t, s, turn, r) then Emit(s.(repairs := s.repairs + 1), Reject(output, r.message))
    else FailTask(Emit(s, Reject(output, r.message)), r.message)
  }

  function Complete(c: Context, s: Loop, payload: string, cited: seq<string>): Loop {
    var partial := c.ancestry != [];
    var note := if partial then Some("completed with degraded dependencies: " + Join(c.ancestry)) else None;
    var outcome := s.outcome.(
      status := if partial then Partial else TaskStatus.Complete,
      output := Some(payload), error := note, sources := Distinct(s.outcome.sources + cited));
    Emit(s.(outcome := outcome), Finish(partial, Some(payload), note)).(ended := true)
  }

  function PlayFinal(t: Dag.Task, c: Context, s: Loop, turn: nat, a: Reply): Loop
    requires a.FinalAction?
  {
    if a.schemaError.Some? then RejectAction(t, s, turn, Some(a.payload), Refusal(a.schemaError.value, true))
    else if a.citations.None? then RejectAction(t, s, turn, Some(a.payload), Refusal("invalid_citations", false))
    else if !(Elements(a.citations.value) <= Elements(c.allowed)) then
      RejectAction(t, s, turn, Some(a.payload), Refusal("final output cites untrusted source IDs", false))
    else Complete(c, s, a.payload, a.citations.value)
  }

  /** One tool call; the flag says whether the next call of the turn follows. */
  function PlayCall(t: Dag.Task, c: Context, s: Loop, turn: nat, text: string, reply: ToolReply): (Loop, bool) {
    var counted := s.(outcome := s.outcome.(toolCalls := s.outcome.toolCalls + 1));
    var s0 := Emit(counted, ToolStart);
    match reply
    case ToolEscapes(point) =>
      (match point
       case Unstarted => (Escape(counted), false)
       case Unreturned => (Escape(s0), false)
       case Unhandled(message) => (Escape(Emit(s0, ToolReject(message))), false))
    case ExecutionError(message) => (FailTask(Emit(s0, ToolFail(message)), message), false)
    case ToolResult(ok, sources, refusal) =>
      if !(Elements(sources) <= Elements(c.allowed)) then
        var message := "tool result returned a source ID outside the task allowlist";
        (FailTask(Emit(s0, ToolFail(message)), message), false)
      else if ok then
        var s1 := Emit(s0, ToolDone);
        (s1.(outcome := s1.outcome.(sources := Distinct(s1.outcome.sources + sources))), true)
      else
        (RejectAction(t, Emit(s0, ToolReject(refusal.message)), turn, Some(text), refusal), false)
  }

  function PlayCalls(t: Dag.Task, c: Context, script: Script, s: Loop, turn: nat, text: string, k: nat, n: nat): Loop
    requires k <= n
    decreases n - k
  {
    if k == n then s
    else
      var (s', more) := PlayCall(t, c, s, turn, text, script.tool(turn, k));
      if more then PlayCalls(t, c, script, s', turn, text, k + 1, n) else s'
  }

  function PlayTools(t: Dag.Task, c: Context, script: Script, s: Loop, turn: nat, a: Reply): Loop
    requires a.ToolCallsAction?
  {
    var limit, refusal := CallLimit(t, a.calls), Preflight(t, c.allowed, a.calls);
    if limit.Some? then RejectAction(t, s, turn, Some(a.text), limit.value)
    else if s.outcome.toolCalls + |a.calls| > t.maxToolCalls then
      RejectAction(t, s, turn, Some(a.text), Refusal("tool-call budget exceeded", false))
    else if refusal.Some? then RejectAction(t, s, turn, Some(a.text), refusal.value)
    else PlayCalls(t, c, script, s, turn, a.text, 0, |a.calls|)
  }

  function ReplyText(a: Reply): string {
    if a.InvalidResult? then "" else a.text
  }

  function PlayTurn(t: Dag.Task, c: Context, script: Script, s: Loop, turn: nat): Loop {
    var a := script.reply(turn);
    var counted := s.(outcome := s.outcome.(turns := turn));
    var s0 := Emit(counted, TurnStart);
    var s1 := Emit(s0, TurnDone(Some(ReplyText(a))));
    match a
    case Escapes(at, _) => Escape(if at.Unasked? then counted else if at.Unanswered? then s0 else s1)
    case InvalidResult(message) => RejectAction(t, s1, turn, Some(""), Refusal(message, false))
    case Unparsable(text, refusal) => RejectAction(t, s1, turn, Some(text), refusal)
    case FinalAction(_, _, _, _) => PlayFinal(t, c, s1, turn, a)
    case ToolCallsAction(_, _) => PlayTools(t, c, script, s1, turn, a)
  }

  function ExhaustedMessage(): string {
    "task did not produce a final action within its turns"
  }

  function PlayTurns(t: Dag.Task, c: Context, script: Script, s: Loop, turn: nat): Loop
    decreases if turn <= t.maxTurns then t.maxTurns + 1 - turn else 0
  {
    if s.ended then s
    else if turn > t.maxTurns then FailTask(s, ExhaustedMessage())
    else PlayTurns(t, c, script, PlayTurn(t, c, script, s, turn), turn + 1)
  }

  function Started(c: Context): Loop {
    Loop(Outcome(Running, None, None, [], 0, 0, c.ancestry), 0, [], false, false)
  }

  function TaskLoop(t: Dag.Task, c: Context, script: Script): Loop {
    PlayTurns(t, c, script, Started(c), 1)
  }

  /** The turn loop as a task body. */
  function TaskTrace(t: Dag.Task, deps: seq<Outcome>, direct: seq<string>, script: Script): Trace
    requires |deps| == |t.deps|
  {
    var end := TaskLoop(t, ContextOf(t, deps, direct), script);
    Trace(end.steps, end.outcome, end.raised)
  }

  // ---------- The loop as the runtime runs it ----------

  method RunCalls(t: Dag.Task, c: Context, script: Script, turn: nat, text: string, n: nat, start: Loop)
    returns (s: Loop)
    requires !start.ended
    ensures s == PlayCalls(t, c, script, start, turn, text, 0, n)
  {
    s := start;
    var more := true;
    var k := 0;
    while k < n && more
      invariant 0 <= k <= n
      invariant more ==>
        PlayCalls(t, c, script, start, turn, text, 0, n) == PlayCalls(t, c, script, s, turn, text, k, n)
      invariant !more ==> PlayCalls(t, c, script, start, turn, text, 0, n) == s
    {
      var played := PlayCall(t, c, s, turn, text, script.tool(turn, k));
      s, more := played.0, played.1;
      k := k + 1;
    }
  }

  /** One turn, from the request to the handling of the answer, left early when an exception escapes. */
  method TakeTurn(t: Dag.Task, c: Context, script: Script, start: Loop, turn: nat) returns (s: Loop)
    requires !start.ended && turn <= t.maxTurns
    ensures s == PlayTurn(t, c, script, start, turn)
    ensures PlayTurns(t, c, script, start, turn) == PlayTurns(t, c, script, s, turn + 1)
  {
    var a := script.reply(turn);
    s := start.(outcome := start.outcome.(turns := turn));
    if a.Escapes? && a.at.Unasked? { return Escape(s); }
    s := Emit(s, TurnStart);
    if a.Escapes? && a.at.Unanswered? { return Escape(s); }
    s := Emit(s, TurnDone(Some(ReplyText(a))));
    match a {
      case Escapes(_, _) => s := Escape(s);
      case InvalidResult(message) => s := RejectAction(t, s, turn, Some(""), Refusal(message, false));
      case Unparsable(text, refusal) => s := RejectAction(t, s, turn, Some(text), refusal);
      case FinalAction(_, _, _, _) => s := PlayFinal(t, c, s, turn, a);
      case ToolCallsAction(text, calls) =>
        var limit, refusal := CallLimit(t, calls), Preflight(t, c.allowed, calls);
        if limit.Some? {
          s := RejectAction(t, s, turn, Some(text), limit.value);
        } else if s.outcome.toolCalls + |calls| > t.maxToolCalls {
          s := RejectAction(t, s, turn, Some(text), Refusal("tool-call budget exceeded", false));
        } else if refusal.Some? {
          s := RejectAction(t, s, turn, Some(text), refusal.value);
        } else {
          s := RunCalls(t, c, script, turn, text, |calls|, s);
        }
    }
  }

  /** `for turn in range(1, max_turns + 1)` with its early returns. */
  method StreamTask(t: Dag.Task, deps: seq<Outcome>, direct: seq<string>, script: Script) returns (trace: Trace)
    requires |deps| == |t.deps|
    ensures trace == TaskTrace(t, deps, direct, script)
  {
    var c := ContextOf(t, deps, direct);
    var s := Started(c);
    var turn := 1;
    while turn <= t.maxTurns && !s.ended
      invariant 1 <= turn <= t.maxTurns + 1
      invariant PlayTurns(t, c, script, s, turn) == TaskLoop(t, c, script)
      decreases t.maxTurns + 1 - turn
    {
      s := TakeTurn(t, c, script, s, turn);
      turn := turn + 1;
    }
    if !s.ended {
      s := FailTask(s, ExhaustedMessage());
    }
    trace := Trace(s.steps, s.outcome, s.raised);
  }

  // ---------- What the loop keeps ----------

  function Turns(steps: seq<Step>): nat {
    if steps == [] then 0 else Turns(steps[..|steps| - 1]) + (if steps[|steps| - 1].move.TurnStart? then 1 else 0)
  }

  function Calls(steps: seq<Step>): nat {
    if steps == [] then 0 else Calls(steps[..|steps| - 1]) + (if steps[|steps| - 1].move.ToolStart? then 1 else 0)
  }

  function Rejections(steps: seq<Step>): nat {
    if steps == [] then 0 else Rejections(steps[..|steps| - 1]) + (if steps[|steps| - 1].move.Reject? then 1 else 0)
  }

  /** The reducer's view of the task after the events so far. */
  function Seen(t: Dag.Task, s: Loop): Result<TaskState, Violation> {
    ReplaySteps(t, s.steps, |s.steps|)
  }

  /** The loop's counters, the reducer's counters and the number of events agree and stay within the budgets. */
  ghost predicate Kept(t: Dag.Task, c: Context, s: Loop) {
    && Budgeted(t, c, s)
    && s.outcome.turns == Turns(s.steps) && s.outcome.toolCalls == Calls(s.steps)
  }

  ghost predicate Budgeted(t: Dag.Task, c: Context, s: Loop) {
    && Seen(t, s).Ok?
    && Seen(t, s).value.turns == Turns(s.steps) <= t.maxTurns
    && Seen(t, s).value.toolCalls == Calls(s.steps) <= t.maxToolCalls
    && s.repairs <= t.repairBudget
    && Elements(s.outcome.sources) <= Elements(c.allowed)
    && s.outcome.ancestry == c.ancestry
  }

  ghost predicate Active(t: Dag.Task, c: Context, s: Loop, status: TaskStatus) {
    && Kept(t, c, s) && !s.ended && !s.raised && Seen(t, s).value.status == status && Rejections(s.steps) == s.repairs
  }

  ghost predicate Finished(t: Dag.Task, c: Context, s: Loop) {
    && Kept(t, c, s) && s.ended && !s.raised && Rejections(s.steps) <= s.repairs + 1
    && Matches(Seen(t, s).value, s.outcome)
    && (s.outcome.status.Complete? || s.outcome.status.Partial? || s.outcome.status.Failed?)
    && (s.outcome.status.Complete? ==> c.ancestry == [])
    && (s.outcome.status.Partial? ==> c.ancestry != [])
  }

  /** Left by an exception: within the budgets, and the reducer follows all that was emitted. */
  ghost predicate Broken(t: Dag.Task, c: Context, s: Loop) {
    Budgeted(t, c, s) && s.ended && s.raised && Rejections(s.steps) == s.repairs
  }

  ghost predicate Sound(t: Dag.Task, c: Context, s: Loop) {
    if !s.ended then Active(t, c, s, Running) else if s.raised then Broken(t, c, s) else Finished(t, c, s)
  }

  lemma {:induction false} ReplayPrefix(t: Dag.Task, steps: seq<Step>, more: seq<Step>, n: nat)
    requires n <= |steps|
    ensures ReplaySteps(t, steps + more, n) == ReplaySteps(t, steps, n)
  {
    if n > 0 { ReplayPrefix(t, steps, more, n - 1); }
  }

  lemma EmitStep(t: Dag.Task, s: Loop, m: Move)
    requires Seen(t, s).Ok? && MoveAllowed(Seen(t, s).value.status, m)
    ensures Seen(t, Emit(s, m)) == Ok(Moved(Seen(t, s).value, m))
    ensures Turns(Emit(s, m).steps) == Turns(s.steps) + (if m.TurnStart? then 1 else 0)
    ensures Calls(Emit(s, m).steps) == Calls(s.steps) + (if m.ToolStart? then 1 else 0)
    ensures Rejections(Emit(s, m).steps) == Rejections(s.steps) + (if m.Reject? then 1 else 0)
  {
    var longer := Emit(s, m).steps;
    assert longer[..|s.steps|] == s.steps;
    ReplayPrefix(t, s.steps, [Step(m, s.outcome)], |s.steps|);
  }

  /** Wherever the exception strikes, the counters may run ahead of the events. */
  lemma EscapeSound(t: Dag.Task, c: Context, s: Loop, outcome: Outcome, status: TaskStatus)
    requires Active(t, c, s, status)
    requires outcome.sources == s.outcome.sources && outcome.ancestry == s.outcome.ancestry
    ensures Broken(t, c, Escape(s.(outcome := outcome)))
  {
  }

  lemma FailSound(t: Dag.Task, c: Context, s: Loop, message: string)
    requires Kept(t, c, s) && !s.raised && Seen(t, s).value.status.Active() && Rejections(s.steps) <= s.repairs + 1
    ensures Finished(t, c, FailTask(s, message))
  {
    EmitStep(t, s.(outcome := s.outcome.(status := Failed, error := Some(message))), Fail(None, message));
  }

  lemma RejectSound(t: Dag.Task, c: Context, s: Loop, turn: nat, output: Option<string>, r: Refusal)
    requires Active(t, c, s, Running)
    ensures Sound(t, c, RejectAction(t, s, turn, output, r))
    ensures RejectAction(t, s, turn, output, r).outcome.turns == s.outcome.turns
  {
    if CanRepair(t, s, turn, r) {
      EmitStep(t, s.(repairs := s.repairs + 1), Reject(output, r.message));
    } else {
      EmitStep(t, s, Reject(output, r.message));
      FailSound(t, c, Emit(s, Reject(output, r.message)), r.message);
    }
  }

  lemma FinalSound(t: Dag.Task, c: Context, s: Loop, turn: nat, a: Reply)
    requires a.FinalAction? && Active(t, c, s, Running)
    ensures Sound(t, c, PlayFinal(t, c, s, turn, a)) && PlayFinal(t, c, s, turn, a).outcome.turns == s.outcome.turns
  {
    if a.schemaError.Some? {
      RejectSound(t, c, s, turn, Some(a.payload), Refusal(a.schemaError.value, true));
    } else if a.citations.None? {
      RejectSound(t, c, s, turn, Some(a.payload), Refusal("invalid_citations", false));
    } else if !(Elements(a.citations.value) <= Elements(c.allowed)) {
      RejectSound(t, c, s, turn, Some(a.payload), Refusal("final output cites untrusted source IDs", false));
    } else {
      CompleteSound(t, c, s, a.payload, a.citations.value);
    }
  }

  lemma JoinedSources(a: seq<string>, b: seq<string>, allowed: seq<string>)
    requires Elements(a) <= Elements(allowed) && Elements(b) <= Elements(allowed)
    ensures Elements(Distinct(a + b)) <= Elements(allowed)
  {
    forall x | x in Elements(a + b) ensures x in Elements(allowed) {
      assert x in Elements(a) || x in Elements(b);
    }
  }

  lemma CompleteSound(t: Dag.Task, c: Context, s: Loop, payload: string, cited: seq<string>)
    requires Active(t, c, s, Running) && Elements(cited) <= Elements(c.allowed)
    ensures Finished(t, c, Complete(c, s, payload, cited))
    ensures Complete(c, s, payload, cited).outcome.turns == s.outcome.turns
  {
    JoinedSources(s.outcome.sources, cited, c.allowed);
    var end := Complete(c, s, payload, cited);
    EmitStep(t, s.(outcome := end.outcome), Finish(c.ancestry != [], Some(payload), end.outcome.error));
  }

  lemma CallSound(t: Dag.Task, c: Context, s: Loop, turn: nat, text: string, reply: ToolReply)
    requires Active(t, c, s, Running) && s.outcome.toolCalls < t.maxToolCalls
    ensures var (s', more) := PlayCall(t, c, s, turn, text, reply);
      && Sound(t, c, s') && (more ==> !s'.ended)
      && s'.outcome.turns == s.outcome.turns && s'.outcome.toolCalls == s.outcome.toolCalls + 1
  {
    ToolStartSound(t, c, s);
    var s0 := Emit(s.(outcome := s.outcome.(toolCalls := s.outcome.toolCalls + 1)), ToolStart);
    match reply
    case ToolEscapes(point) => CallEscapeSound(t, c, s, s0, turn, text, point);
    case ExecutionError(message) => ToolFailSound(t, c, s0, message);
    case ToolResult(ok, sources, refusal) =>
      if !(Elements(sources) <= Elements(c.allowed)) {
        ToolFailSound(t, c, s0, "tool result returned a source ID outside the task allowlist");
      } else if ok {
        ToolDoneSound(t, c, s0, sources);
      } else {
        ToolRejectSound(t, c, s0, turn, text, refusal);
      }
  }

  lemma ToolRejectSound(t: Dag.Task, c: Context, s: Loop, turn: nat, text: string, refusal: Refusal)
    requires Active(t, c, s, WaitingTool)
    ensures var s' := RejectAction(t, Emit(s, ToolReject(refusal.message)), turn, Some(text), refusal);
      && Sound(t, c, s') && s'.outcome.turns == s.outcome.turns && s'.outcome.toolCalls == s.outcome.toolCalls
  {
    EmitStep(t, s, ToolReject(refusal.message));
    RejectSound(t, c, Emit(s, ToolReject(refusal.message)), turn, Some(text), refusal);
  }

  lemma CallEscapeSound(t: Dag.Task, c: Context, s: Loop, s0: Loop, turn: nat, text: string, point: CallPoint)
    requires Active(t, c, s, Running) && Active(t, c, s0, WaitingTool)
    requires s0 == Emit(s.(outcome := s.outcome.(toolCalls := s.outcome.toolCalls + 1)), ToolStart)
    ensures Broken(t, c, PlayCall(t, c, s, turn, text, ToolEscapes(point)).0)
  {
    match point
    case Unstarted => EscapeSound(t, c, s, s0.outcome, Running);
    case Unreturned => EscapeSound(t, c, s0, s0.outcome, WaitingTool);
    case Unhandled(message) =>
      EmitStep(t, s0, ToolReject(message));
      EscapeSound(t, c, Emit(s0, ToolReject(message)), s0.outcome, Running);
  }

  lemma ToolDoneSound(t: Dag.Task, c: Context, s: Loop, sources: seq<string>)
    requires Active(t, c, s, WaitingTool) && Elements(sources) <= Elements(c.allowed)
    ensures var s1 := Emit(s, ToolDone);
      Active(t, c, s1.(outcome := s1.outcome.(sources := Distinct(s1.outcome.sources + sources))), Running)
  {
    EmitStep(t, s, ToolDone);
    JoinedSources(s.outcome.sources, sources, c.allowed);
  }

  lemma ToolStartSound(t: Dag.Task, c: Context, s: Loop)
    requires Active(t, c, s, Running) && s.outcome.toolCalls < t.maxToolCalls
    ensures Active(t, c, Emit(s.(outcome := s.outcome.(toolCalls := s.outcome.toolCalls + 1)), ToolStart), WaitingTool)
  {
    EmitStep(t, s.(outcome := s.outcome.(toolCalls := s.outcome.toolCalls + 1)), ToolStart);
  }

  lemma ToolFailSound(t: Dag.Task, c: Context, s: Loop, message: string)
    requires Active(t, c, s, WaitingTool)
    ensures Finished(t, c, FailTask(Emit(s, ToolFail(message)), message))
  {
    EmitStep(t, s, ToolFail(message));
    FailSound(t, c, Emit(s, ToolFail(message)), message);
  }

  lemma {:induction false} CallsSound(
      t: Dag.Task, c: Context, script: Script, s: Loop, turn: nat, text: string, k: nat, n: nat)
    requires k <= n && Active(t, c, s, Running) && s.outcome.toolCalls + (n - k) <= t.maxToolCalls
    ensures var s' := PlayCalls(t, c, script, s, turn, text, k, n);
      Sound(t, c, s') && s'.outcome.turns == s.outcome.turns
    decreases n - k
  {
    if k < n {
      CallSound(t, c, s, turn, text, script.tool(turn, k));
      var (s', more) := PlayCall(t, c, s, turn, text, script.tool(turn, k));
      if more { CallsSound(t, c, script, s', turn, text, k + 1, n); }
    }
  }

  lemma ToolsSound(t: Dag.Task, c: Context, script: Script, s: Loop, turn: nat, a: Reply)
    requires a.ToolCallsAction? && Active(t, c, s, Running)
    ensures var s' := PlayTools(t, c, script, s, turn, a); Sound(t, c, s') && s'.outcome.turns == s.outcome.turns
  {
    var limit, refusal := CallLimit(t, a.calls), Preflight(t, c.allowed, a.calls);
    if limit.Some? {
      RejectSound(t, c, s, turn, Some(a.text), limit.value);
    } else if s.outcome.toolCalls + |a.calls| > t.maxToolCalls {
      RejectSound(t, c, s, turn, Some(a.text), Refusal("tool-call budget exceeded", false));
    } else if refusal.Some? {
      RejectSound(t, c, s, turn, Some(a.text), refusal.value);
    } else {
      CallsSound(t, c, script, s, turn, a.text, 0, |a.calls|);
    }
  }

  lemma TurnSound(t: Dag.Task, c: Context, script: Script, s: Loop, turn: nat)
    requires Active(t, c, s, Running) && s.outcome.turns + 1 == turn <= t.maxTurns
    ensures var s' := PlayTurn(t, c, script, s, turn); Sound(t, c, s') && s'.outcome.turns == turn
  {
    var a := script.reply(turn);
    var counted := s.(outcome := s.outcome.(turns := turn));
    EmitStep(t, counted, TurnStart);
    var s0 := Emit(counted, TurnStart);
    EmitStep(t, s0, TurnDone(Some(ReplyText(a))));
    var s1 := Emit(s0, TurnDone(Some(ReplyText(a))));
    assert Active(t, c, s1, Running);
    match a
    case Escapes(at, _) =>
      EscapeSound(t, c, s, counted.outcome, Running);
      EscapeSound(t, c, s0, s0.outcome, WaitingModel);
      EscapeSound(t, c, s1, s1.outcome, Running);
    case InvalidResult(message) => RejectSound(t, c, s1, turn, Some(""), Refusal(message, false));
    case Unparsable(text, refusal) => RejectSound(t, c, s1, turn, Some(text), refusal);
    case FinalAction(_, _, _, _) => FinalSound(t, c, s1, turn, a);
    case ToolCallsAction(_, _) => ToolsSound(t, c, script, s1, turn, a);
  }

  /** Where the loop stands when it enters the given turn. */
  ghost predicate Entering(t: Dag.Task, c: Context, s: Loop, turn: nat) {
    Sound(t, c, s) && (!s.ended ==> s.outcome.turns + 1 == turn <= t.maxTurns + 1)
  }

  lemma NextEntered(t: Dag.Task, c: Context, script: Script, s: Loop, turn: nat) returns (s': Loop)
    requires Entering(t, c, s, turn) && !s.ended && turn <= t.maxTurns
    ensures Entering(t, c, s', turn + 1) && PlayTurns(t, c, script, s, turn) == PlayTurns(t, c, script, s', turn + 1)
  {
    TurnSound(t, c, script, s, turn);
    s' := PlayTurn(t, c, script, s, turn);
  }

  ghost predicate Left(t: Dag.Task, c: Context, s: Loop) {
    s.ended && Sound(t, c, s)
  }

  lemma OutOfTurns(t: Dag.Task, c: Context, s: Loop, turn: nat)
    requires Entering(t, c, s, turn) && !s.ended
    ensures Left(t, c, FailTask(s, ExhaustedMessage()))
  {
    FailSound(t, c, s, ExhaustedMessage());
  }

  lemma {:induction false} TurnsSound(t: Dag.Task, c: Context, script: Script, s: Loop, turn: nat)
    requires Entering(t, c, s, turn)
    ensures Left(t, c, PlayTurns(t, c, script, s, turn))
    decreases if turn <= t.maxTurns then t.maxTurns + 1 - turn else 0
  {
    if !s.ended {
      if turn > t.maxTurns {
        OutOfTurns(t, c, s, turn);
      } else {
        var s' := NextEntered(t, c, script, s, turn);
        TurnsSound(t, c, script, s', turn + 1);
      }
    }
  }

  // ---------- When an exception escapes ----------

  /** The call of an accepted turn is reached when all calls before it succeed. */
  predicate Succeeds(c: Context, r: ToolReply) {
    r.ToolResult? && r.ok && Elements(r.sources) <= Elements(c.allowed)
  }

  predicate CallEscapes(c: Context, script: Script, turn: nat, first: nat, k: nat) {
    script.tool(turn, k).ToolEscapes? && forall j: nat :: first <= j < k ==> Succeeds(c, script.tool(turn, j))
  }

  predicate SomeCallEscapes(c: Context, script: Script, turn: nat, k: nat, n: nat) {
    exists i: nat :: k <= i < n && CallEscapes(c, script, turn, k, i)
  }

  predicate CallsAccepted(t: Dag.Task, c: Context, s: Loop, a: Reply) {
    && a.ToolCallsAction? && CallLimit(t, a.calls).None? && s.outcome.toolCalls + |a.calls| <= t.maxToolCalls
    && Preflight(t, c.allowed, a.calls).None?
  }

  /** In this turn, entered in state `s`, an escaping answer is met. */
  predicate TurnEscapes(t: Dag.Task, c: Context, script: Script, s: Loop, turn: nat) {
    var a := script.reply(turn);
    || a.Escapes?
    || (CallsAccepted(t, c, s, a) && SomeCallEscapes(c, script, turn, 0, |a.calls|))
  }

  /** Some turn that the loop reaches, from the given one on, meets an escaping answer. */
  predicate EscapesFrom(t: Dag.Task, c: Context, script: Script, s: Loop, turn: nat)
    decreases if turn <= t.maxTurns then t.maxTurns + 1 - turn else 0
  {
    && !s.ended && turn <= t.maxTurns
    && (|| TurnEscapes(t, c, script, s, turn)
        || EscapesFrom(t, c, script, PlayTurn(t, c, script, s, turn), turn + 1))
  }

  predicate MeetsEscape(t: Dag.Task, c: Context, script: Script) {
    EscapesFrom(t, c, script, Started(c), 1)
  }

  lemma CallRaisesIff(t: Dag.Task, c: Context, s: Loop, turn: nat, text: string, reply: ToolReply)
    requires !s.raised
    ensures var (s', more) := PlayCall(t, c, s, turn, text, reply);
      (s'.raised <==> reply.ToolEscapes?) && (more <==> Succeeds(c, reply))
  {
  }

  lemma {:induction false} CallsRaiseIff(
      t: Dag.Task, c: Context, script: Script, s: Loop, turn: nat, text: string, k: nat, n: nat)
    requires k <= n && !s.raised
    ensures PlayCalls(t, c, script, s, turn, text, k, n).raised <==> SomeCallEscapes(c, script, turn, k, n)
    decreases n - k
  {
    if k < n {
      CallRaisesIff(t, c, s, turn, text, script.tool(turn, k));
      NextCall(c, script, turn, k, n);
      if Succeeds(c, script.tool(turn, k)) {
        var s' := PlayCall(t, c, s, turn, text, script.tool(turn, k)).0;
        CallsRaiseIff(t, c, script, s', turn, text, k + 1, n);
      }
    }
  }

  lemma NextCall(c: Context, script: Script, turn: nat, k: nat, n: nat)
    requires k < n
    ensures SomeCallEscapes(c, script, turn, k, n) <==>
      var r := script.tool(turn, k);
      r.ToolEscapes? || (Succeeds(c, r) && SomeCallEscapes(c, script, turn, k + 1, n))
  {
    if script.tool(turn, k).ToolEscapes? { assert CallEscapes(c, script, turn, k, k); }
    if i: nat :| k <= i < n && CallEscapes(c, script, turn, k, i) {
      if k < i { assert CallEscapes(c, script, turn, k + 1, i); }
    }
    var next := k + 1;
    if i: nat :| next <= i < n && CallEscapes(c, script, turn, next, i) {
      if Succeeds(c, script.tool(turn, k)) { assert CallEscapes(c, script, turn, k, i); }
    }
  }

  lemma TurnRaisesIff(t: Dag.Task, c: Context, script: Script, s: Loop, turn: nat)
    requires !s.raised
    ensures PlayTurn(t, c, script, s, turn).raised <==> TurnEscapes(t, c, script, s, turn)
  {
    var a := script.reply(turn);
    if a.ToolCallsAction? {
      var s1 := Emit(Emit(s.(outcome := s.outcome.(turns := turn)), TurnStart), TurnDone(Some(ReplyText(a))));
      if CallsAccepted(t, c, s1, a) { CallsRaiseIff(t, c, script, s1, turn, a.text, 0, |a.calls|); }
    }
  }

  lemma {:induction false} RaisedCallsHaveEnded(
      t: Dag.Task, c: Context, script: Script, s: Loop, turn: nat, text: string, k: nat, n: nat)
    requires k <= n && !s.raised && PlayCalls(t, c, script, s, turn, text, k, n).raised
    ensures PlayCalls(t, c, script, s, turn, text, k, n).ended
    decreases n - k
  {
    var (s', more) := PlayCall(t, c, s, turn, text, script.tool(turn, k));
    CallRaisesIff(t, c, s, turn, text, script.tool(turn, k));
    if more { RaisedCallsHaveEnded(t, c, script, s', turn, text, k + 1, n); }
  }

  /** A loop that an exception leaves is over. */
  lemma RaisedHasEnded(t: Dag.Task, c: Context, script: Script, s: Loop, turn: nat)
    requires !s.raised && PlayTurn(t, c, script, s, turn).raised
    ensures PlayTurn(t, c, script, s, turn).ended
  {
    var a := script.reply(turn);
    if a.ToolCallsAction? {
      var s1 := Emit(Emit(s.(outcome := s.outcome.(turns := turn)), TurnStart), TurnDone(Some(ReplyText(a))));
      if CallsAccepted(t, c, s1, a) { RaisedCallsHaveEnded(t, c, script, s1, turn, a.text, 0, |a.calls|); }
    }
  }

  lemma {:induction false} TurnsRaiseIff(t: Dag.Task, c: Context, script: Script, s: Loop, turn: nat)
    requires !s.raised
    ensures PlayTurns(t, c, script, s, turn).raised <==> EscapesFrom(t, c, script, s, turn)
    decreases if turn <= t.maxTurns then t.maxTurns + 1 - turn else 0
  {
    if !s.ended && turn <= t.maxTurns {
      TurnRaisesIff(t, c, script, s, turn);
      if TurnEscapes(t, c, script, s, turn) {
        RaisedHasEnded(t, c, script, s, turn);
      } else {
        TurnsRaiseIff(t, c, script, PlayTurn(t, c, script, s, turn), turn + 1);
      }
    }
  }

  /** For any model and tool behaviour the loop stays within its budgets and the reducer follows every event. Unless an
      exception escapes it ends its task in COMPLETE, PARTIAL or FAILED with the loop's own counters; and an exception
      escapes exactly when a turn that is reached meets an answer that raises past the loop's handlers. */
  lemma TaskLoopSound(t: Dag.Task, c: Context, script: Script)
    ensures var end := TaskLoop(t, c, script); if end.raised then Broken(t, c, end) else Finished(t, c, end)
    ensures TaskLoop(t, c, script).raised <==> MeetsEscape(t, c, script)
  {
    TurnsSound(t, c, script, Started(c), 1);
    TurnsRaiseIff(t, c, script, Started(c), 1);
  }

  /** What a caller can see to: no answer raises past the loop's handlers. */
  ghost predicate Calm(script: Script) {
    && (forall turn: nat :: !script.reply(turn).Escapes?)
    && (forall turn: nat, k: nat :: !script.tool(turn, k).ToolEscapes?)
  }

  lemma CalmScriptsDoNotRaise(t: Dag.Task, c: Context, script: Script)
    requires Calm(script)
    ensures !MeetsEscape(t, c, script) && !TaskLoop(t, c, script).raised
  {
    CalmFrom(t, c, script, Started(c), 1);
    TaskLoopSound(t, c, script);
  }

  lemma {:induction false} CalmFrom(t: Dag.Task, c: Context, script: Script, s: Loop, turn: nat)
    requires Calm(script)
    ensures !EscapesFrom(t, c, script, s, turn)
    decreases if turn <= t.maxTurns then t.maxTurns + 1 - turn else 0
  {
    if !s.ended && turn <= t.maxTurns { CalmFrom(t, c, script, PlayTurn(t, c, script, s, turn), turn + 1); }
  }

  lemma TaskTraceIsLawful(t: Dag.Task, deps: seq<Outcome>, direct: seq<string>, script: Script)
    requires |deps| == |t.deps|
    ensures LawfulTrace(t, TaskTrace(t, deps, direct, script))
  {
    TaskLoopSound(t, ContextOf(t, deps, direct), script);
  }

  /** A turn whose calls are not all accepted starts none of them. */
  lemma AllCallsOrNone(t: Dag.Task, c: Context, script: Script, s: Loop, turn: nat, a: Reply, p: Proposal)
    requires a.ToolCallsAction? && p in a.calls && CheckCall(t, c.allowed, p).Some?
    ensures Calls(PlayTools(t, c, script, s, turn, a).steps) == Calls(s.steps)
    ensures PlayTools(t, c, script, s, turn, a).outcome.toolCalls == s.outcome.toolCalls
  {
    RejectStartsNothing(t, s, turn, Some(a.text));
  }

  lemma RejectStartsNothing(t: Dag.Task, s: Loop, turn: nat, output: Option<string>)
    ensures forall r :: Calls(RejectAction(t, s, turn, output, r).steps) == Calls(s.steps)
    ensures forall r :: RejectAction(t, s, turn, output, r).outcome.toolCalls == s.outcome.toolCalls
  {
    forall r ensures Calls(RejectAction(t, s, turn, output, r).steps) == Calls(s.steps) {
      var s0 := Emit(s, Reject(output, r.message));
      assert s0.steps[..|s.steps|] == s.steps;
      var s1 := FailTask(s0, r.message);
      assert s1.steps[..|s0.steps|] == s0.steps;
    }
  }
}
