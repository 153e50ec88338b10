/** The run controller and its in-memory journal (controller.py, journal.py): whatever is offered, refused,
    paused or cancelled, the live state is the replay of the journal. */
module Controller {
  import opened Common
  import opened Events
  import opened Reducer
  import Dag
  import Workload
  import Scheduler
  import Simulation
  import Agents
  import FixedDagStream
  import Provenance
  import TurnLoop

  // ---------- What one publication does ----------

  /** The part of a controller that a publication changes. */
  datatype Log = Log(state: RunState, journal: seq<Event>, closed: bool)

  datatype Refusal = Invalid(violation: Violation) | JournalClosed | AlreadyStarted

  /** `_publish`: reduce, append, and only then move on; a refusal at either step changes nothing. */
  function Attempt(log: Log, d: Draft): Result<Log, Refusal> {
    var next := Publish(log.state, d);
    if next.Err? then Err(Invalid(next.error))
    else if log.closed then Err(JournalClosed)
    else Ok(Log(next.value, log.journal + [Stamp(log.state, d)], false))
  }

  function Offer(log: Log, d: Draft): Log {
    var r := Attempt(log, d);
    if r.Ok? then r.value else log
  }

  function Plain(p: Payload): Draft {
    Draft(None, p)
  }

  // ---------- A controller's life ----------

  /** How `_drive` leaves its loop: the stream is over, the task was cancelled, an exception escaped, or something else
      was raised that only the `finally` clause sees. */
  datatype Ending = Finished | Interrupted | Raised(error: string) | Exited

  datatype Operation = Begin | Pause | Resume | Cancel | Emit(d: Draft) | EndDrive(ending: Ending)

  datatype Life = Life(log: Log, started: bool, cancelling: bool)

  /** The event `_drive` adds at its end, if any. */
  function LastDraft(s: RunState, cancelling: bool, e: Ending): Option<Draft> {
    if s.status.Terminal() then None
    else match e
      case Finished => if cancelling then None else Some(Plain(RunCompleted))
      case Interrupted => Some(Plain(RunCancelled))
      case Raised(error) => Some(Plain(RunFailed(error)))
      case Exited => None
  }

  function OfferAny(log: Log, d: Option<Draft>): Log {
    if d.Some? then Offer(log, d.value) else log
  }

  function EndLog(log: Log, cancelling: bool, e: Ending): Log {
    OfferAny(log, LastDraft(log.state, cancelling, e)).(closed := true)
  }

  /** What an operation offers to the journal, if anything. `Emit` is RUN_STARTED or what the runtime yields. */
  function Offered(spec: RunSpec, x: Life, op: Operation): Option<Draft> {
    var status := x.log.state.status;
    match op
    case Begin => if x.started then None else Some(Plain(RunCreated(spec)))
    case Pause => if status.RunningRun? || status.Synthesizing? then Some(Plain(RunPaused)) else None
    case Resume => if status.Paused? then Some(Plain(RunResumed)) else None
    case Cancel => if status.Terminal() || x.started then None else Some(Plain(RunCancelled))
    case Emit(d) => if x.started then Some(d) else None
    case EndDrive(ending) => if x.started then LastDraft(x.log.state, x.cancelling, ending) else None
  }

  /** Which operations close the journal: the end of the drive, and a cancellation before the start. */
  predicate Closes(x: Life, op: Operation) {
    (op.EndDrive? && x.started) || (op.Cancel? && !x.started && !x.log.state.status.Terminal())
  }

  /** Operations of a controller, in any order. */
  function Operate(spec: RunSpec, x: Life, op: Operation): Life {
    var d := Offered(spec, x, op);
    Life(OfferAny(x.log, d).(closed := x.log.closed || Closes(x, op)),
         x.started || (op.Begin? && d.Some? && Attempt(x.log, d.value).Ok?),
         x.cancelling || (op.Cancel? && !x.log.state.status.Terminal()))
  }

  function Born(spec: RunSpec): Life {
    Life(Log(InitialState(spec), [], false), false, false)
  }

  function OperateAll(spec: RunSpec, x: Life, ops: seq<Operation>): Life {
    if ops == [] then x else Operate(spec, OperateAll(spec, x, ops[..|ops| - 1]), ops[|ops| - 1])
  }

  function Live(spec: RunSpec, ops: seq<Operation>): Life {
    OperateAll(spec, Born(spec), ops)
  }

  lemma {:induction false} OperateAppend(spec: RunSpec, x: Life, a: seq<Operation>, b: seq<Operation>)
    ensures OperateAll(spec, x, a + b) == OperateAll(spec, OperateAll(spec, x, a), b)
  {
    if b == [] {
      assert a + b == a;
    } else {
      OperateAppend(spec, x, a, b[..|b| - 1]);
      assert (a + b)[..|a + b| - 1] == a + b[..|b| - 1];
    }
  }

  lemma OperateOne(spec: RunSpec, x: Life, op: Operation)
    ensures OperateAll(spec, x, [op]) == Operate(spec, x, op)
  {
    assert [op][..0] == [];
    assert OperateAll(spec, x, [op][..0]) == x;
  }

  // ---------- Replay ----------

  datatype ReplayError = EmptyJournal | NotCreatedFirst | Corrupt(violation: Violation)

  /** `replay`, once the lines have been read and verified. */
  function Replay(journal: seq<Event>): Result<RunState, ReplayError> {
    if journal == [] then Err(EmptyJournal)
    else if !journal[0].draft.payload.RunCreated? then Err(NotCreatedFirst)
    else
      var end := ReduceAll(InitialState(journal[0].draft.payload.spec), journal);
      if end.Ok? then Ok(end.value) else Err(Corrupt(end.error))
  }

  lemma {:induction false} ErrorsStick(s: RunState, events: seq<Event>, n: nat)
    requires n <= |events| && ReduceAll(s, events[..n]).Err?
    ensures ReduceAll(s, events) == ReduceAll(s, events[..n])
    decreases |events| - n
  {
    if n == |events| {
      assert events[..n] == events;
    } else {
      assert events[..n + 1][..n] == events[..n];
      ErrorsStick(s, events, n + 1);
    }
  }

  method ReplayJournal(journal: seq<Event>) returns (r: Result<RunState, ReplayError>)
    ensures r == Replay(journal)
  {
    if journal == [] { return Err(EmptyJournal); }
    if !journal[0].draft.payload.RunCreated? { return Err(NotCreatedFirst); }
    var first := InitialState(journal[0].draft.payload.spec);
    var state := first;
    for i := 0 to |journal|
      invariant ReduceAll(first, journal[..i]) == Ok(state)
    {
      assert journal[..i + 1][..i] == journal[..i];
      var next := ReduceEvent(state, journal[i]);
      if next.Err? {
        ErrorsStick(first, journal, i + 1);
        return Err(Corrupt(next.error));
      }
      state := next.value;
    }
    assert journal[..|journal|] == journal;
    return Ok(state);
  }

  predicate EndsRun(p: Payload) {
    p.RunCompleted? || p.RunCancelled? || p.RunFailed?
  }

  /** The live state against the journal: it is the fold, events are numbered from zero, the recent events are
      the last eighty, and a run-terminal event can only stand last, which is when the run is over. */
  ghost predicate Faithful(spec: RunSpec, log: Log) {
    && ReduceAll(InitialState(spec), log.journal) == Ok(log.state)
    && log.state.spec == spec && log.state.lastSequence == |log.journal| - 1
    && Numbered(spec, log.journal)
    && log.state.recent == LastRecent(log.journal, RECENT)
    && (log.state.status.Terminal() <==>
        log.journal != [] && EndsRun(log.journal[|log.journal| - 1].draft.payload))
  }

  lemma RecentWindow(journal: seq<Event>, e: Event)
    ensures LastRecent(LastRecent(journal, RECENT), RECENT - 1) + [e] == LastRecent(journal + [e], RECENT)
  {
  }

  lemma OneEvent(s: RunState, e: Event)
    requires ReduceEvent(s, e).Ok?
    ensures var s' := ReduceEvent(s, e).value;
      && s'.spec == s.spec && s'.lastSequence == s.lastSequence + 1 == e.sequence && !s.status.Terminal()
      && s'.recent == LastRecent(s.recent, RECENT - 1) + [e]
      && (s'.status.Terminal() <==> EndsRun(e.draft.payload))
  {
  }

  /** The part of faithfulness that speaks of the journal alone. */
  ghost predicate Numbered(spec: RunSpec, journal: seq<Event>) {
    && (forall i :: 0 <= i < |journal| ==> journal[i].sequence == i && journal[i].runId == spec.runId)
    && (forall i :: 0 <= i < |journal| && EndsRun(journal[i].draft.payload) ==> i == |journal| - 1)
  }

  lemma NumberedOneMore(spec: RunSpec, journal: seq<Event>, e: Event)
    requires Numbered(spec, journal) && e.sequence == |journal| && e.runId == spec.runId
    requires journal != [] ==> !EndsRun(journal[|journal| - 1].draft.payload)
    ensures Numbered(spec, journal + [e])
  {
  }

  lemma AttemptKeepsFaith(spec: RunSpec, log: Log, d: Draft)
    requires Faithful(spec, log) && Attempt(log, d).Ok?
    ensures Faithful(spec, Attempt(log, d).value)
  {
    var e, log' := Stamp(log.state, d), Attempt(log, d).value;
    OneEvent(log.state, e);
    RecentWindow(log.journal, e);
    NumberedOneMore(spec, log.journal, e);
    assert log'.journal[..|log.journal|] == log.journal;
  }

  /** Who opened the journal: a started controller with its own RUN_CREATED; one that never started has at most
      the event of an early cancellation. */
  predicate Opened(spec: RunSpec, x: Life) {
    OpenedBy(spec, x.log.journal, x.started)
  }

  predicate OpenedBy(spec: RunSpec, journal: seq<Event>, started: bool) {
    if started then journal != [] && journal[0].draft.payload == RunCreated(spec)
    else journal == [] || (|journal| == 1 && journal[0].draft.payload.RunCancelled?)
  }

  /** What an offer does, without saying what the draft is. */
  lemma OfferKeepsFaith(spec: RunSpec, log: Log, d: Option<Draft>)
    requires Faithful(spec, log)
    ensures var after := OfferAny(log, d);
      && Faithful(spec, after) && log.journal <= after.journal && after.closed == log.closed
      && (log.closed || log.state.status.Terminal() || d.None? ==> after == log)
      && (if d.Some? && Attempt(log, d.value).Ok?
          then after.journal == log.journal + [Stamp(log.state, d.value)] && !log.state.status.Terminal()
          else after == log)
  {
    if d.Some? && Attempt(log, d.value).Ok? { AttemptKeepsFaith(spec, log, d.value); }
  }

  lemma OperationKeepsFaith(spec: RunSpec, x: Life, op: Operation)
    requires Faithful(spec, x.log) && Opened(spec, x)
    ensures Faithful(spec, Operate(spec, x, op).log) && Opened(spec, Operate(spec, x, op))
  {
    var d := Offered(spec, x, op);
    var after, accepted := OfferAny(x.log, d), d.Some? && Attempt(x.log, d.value).Ok?;
    OfferKeepsFaith(spec, x.log, d);
    if !x.started { NotStarted(spec, x); }
    StaysOpened(spec, x, op, d, accepted, after);
    FaithIgnoresClosing(spec, after, x.log.closed || Closes(x, op));
  }

  lemma FaithIgnoresClosing(spec: RunSpec, log: Log, closed: bool)
    requires Faithful(spec, log)
    ensures Faithful(spec, log.(closed := closed))
  {
  }

  lemma StaysOpened(spec: RunSpec, x: Life, op: Operation, d: Option<Draft>, accepted: bool, after: Log)
    requires Opened(spec, x) && d == Offered(spec, x, op)
    requires !x.started ==> x.log.state.status.Idle? || x.log.state.status.Terminal()
    requires x.log.journal == [] || x.started || x.log.state.status.Terminal()
    requires accepted ==> d.Some? && !x.log.state.status.Terminal()
    requires after.journal == if accepted then x.log.journal + [Stamp(x.log.state, d.value)] else x.log.journal
    ensures OpenedBy(spec, after.journal, x.started || (op.Begin? && accepted))
  {
  }

  /** Before the start a run is idle, or over already. */
  lemma NotStarted(spec: RunSpec, x: Life)
    requires Faithful(spec, x.log) && Opened(spec, x) && !x.started
    ensures if x.log.journal == [] then x.log.state.status.Idle? else x.log.state.status.Terminal()
  {
  }

  lemma CancelIsOperation(spec: RunSpec, x: Life)
    requires Faithful(spec, x.log) && Opened(spec, x)
    ensures Operate(spec, x, Cancel) ==
      if x.log.state.status.Terminal() then x
      else if x.started then x.(cancelling := true)
      else Life(OfferAny(x.log, Some(Plain(RunCancelled))).(closed := true), false, true)
    ensures Opened(spec, Operate(spec, x, Cancel))
  {
    OperationKeepsFaith(spec, x, Cancel);
  }

  lemma EndIsOperation(spec: RunSpec, x: Life, e: Ending)
    requires x.started
    ensures Operate(spec, x, EndDrive(e)) == x.(log := EndLog(x.log, x.cancelling, e))
  {
  }

  lemma EmitIsOperation(spec: RunSpec, x: Life, d: Draft)
    requires x.started
    ensures Operate(spec, x, Emit(d)) == x.(log := Offer(x.log, d))
  {
  }

  lemma StartedStaysOpened(spec: RunSpec, x: Life, d: Draft)
    requires x.started && Opened(spec, x)
    ensures Attempt(x.log, d).Ok? ==> Opened(spec, x.(log := Attempt(x.log, d).value))
  {
  }

  /** Replay equivalence: after any operations, refused drafts included, the state is the fold of the journal. */
  lemma {:induction false} LivesAreFaithful(spec: RunSpec, ops: seq<Operation>)
    ensures Faithful(spec, Live(spec, ops).log) && Opened(spec, Live(spec, ops))
    ensures var log := Live(spec, ops).log; var n := |log.journal|;
      log.state.recent == if n <= 80 then log.journal else log.journal[n - 80..]
  {
    if ops != [] {
      LivesAreFaithful(spec, ops[..|ops| - 1]);
      OperationKeepsFaith(spec, Live(spec, ops[..|ops| - 1]), ops[|ops| - 1]);
    }
  }

  /** A journal is never rewritten, and once a run-terminal event is in it, or it is closed, it stays as it is. */
  lemma {:induction false} JournalsOnlyGrow(spec: RunSpec, ops: seq<Operation>, more: seq<Operation>)
    ensures Grows(Live(spec, ops).log, Live(spec, ops + more).log)
  {
    if more == [] {
      assert ops + more == ops;
    } else {
      var front := more[..|more| - 1];
      JournalsOnlyGrow(spec, ops, front);
      FrontOfSum(ops, more);
      LivesAreFaithful(spec, ops + front);
      OperationGrows(spec, Live(spec, ops + front), more[|more| - 1]);
    }
  }

  predicate Grows(before: Log, after: Log) {
    && before.journal <= after.journal && (before.closed ==> after.closed)
    && (before.closed || before.state.status.Terminal() ==>
        after.journal == before.journal && after.state == before.state)
  }

  lemma OperationGrows(spec: RunSpec, x: Life, op: Operation)
    requires Faithful(spec, x.log)
    ensures Grows(x.log, Operate(spec, x, op).log)
  {
    OfferKeepsFaith(spec, x.log, Offered(spec, x, op));
  }

  /** `replay` of what a controller wrote rebuilds its state exactly when the controller was started. */
  lemma ReplayRebuilds(spec: RunSpec, ops: seq<Operation>)
    ensures var x := Live(spec, ops); Replay(x.log.journal) == Ok(x.log.state) <==> x.started
  {
    LivesAreFaithful(spec, ops);
  }

  /** The excluded case is real: a run cancelled before its start has a journal that cannot be replayed. */
  lemma EarlyCancellationCannotReplay(spec: RunSpec)
    ensures var x := Live(spec, [Cancel]);
      x.log.state.status.Cancelled? && |x.log.journal| == 1 && Replay(x.log.journal) == Err(NotCreatedFirst)
  {
    OperateOne(spec, Born(spec), Cancel);
  }

  /** A pause and a resumption touch no task and no agent, and bring the run back to where it was exactly when it was
      running: a run paused while synthesizing comes back as running. */
  lemma PauseAndResume(spec: RunSpec, x: Life)
    requires !x.log.closed && (x.log.state.status.RunningRun? || x.log.state.status.Synthesizing?)
    ensures Operate(spec, x, Resume) == x
    ensures var paused := Operate(spec, x, Pause); var resumed := Operate(spec, paused, Resume);
      && paused.log.state.status.Paused? && Operate(spec, paused, Pause) == paused
      && Alike(x.log.state, paused.log.state) && Alike(x.log.state, resumed.log.state)
      && (resumed.log.state.status == x.log.state.status <==> x.log.state.status.RunningRun?)
  {
  }

  /** When a drive ends on an open journal, the run is over, except after a requested cancellation that the runtime
      answered by ending its stream, and when no handler saw what was raised. */
  lemma DrivesEndRuns(spec: RunSpec, ops: seq<Operation>, e: Ending)
    requires var x := Live(spec, ops); x.started && !x.log.closed
    ensures var x, log := Live(spec, ops), Live(spec, ops + [EndDrive(e)]).log;
      && log.closed
      && (log.state.status.Terminal() <==>
          x.log.state.status.Terminal() || !((e.Finished? && x.cancelling) || e.Exited?))
  {
    var x := Live(spec, ops);
    OperateAppend(spec, Born(spec), ops, [EndDrive(e)]);
    OperateOne(spec, x, EndDrive(e));
    EndIsOperation(spec, x, e);
    EndLogEnds(x.log, x.cancelling, e);
  }

  lemma EndLogEnds(log: Log, cancelling: bool, e: Ending)
    requires !log.closed
    ensures var end := EndLog(log, cancelling, e);
      && end.closed
      && (end.state.status.Terminal() <==>
          log.state.status.Terminal() || !((e.Finished? && cancelling) || e.Exited?))
  {
  }

  // ---------- The drive loop ----------

  function Describe(r: Refusal): string {
    match r
    case Invalid(_) => "state invariant"
    case JournalClosed => "journal is closed"
    case AlreadyStarted => "run controller has already started"
  }

  /** What other coroutines may do while the drive waits. */
  predicate ByOthers(ops: seq<Operation>) {
    forall op :: op in ops ==> op.Pause? || op.Resume? || op.Cancel?
  }

  /** The drafts from k on, with what others do before each of them and before the stream ends: the life they lead
      to, and how the loop is left. */
  function PlayDrafts(
      spec: RunSpec, x: Life, drafts: seq<Draft>, others: nat -> seq<Operation>, ending: Ending, k: nat): (Life, Ending)
    requires k <= |drafts|
    decreases |drafts| - k
  {
    var y := OperateAll(spec, x, others(k));
    if k == |drafts| then (y, ending)
    else if y.cancelling then (y, Finished)
    else
      var r := Attempt(y.log, drafts[k]);
      if r.Err? then (y, Raised(Describe(r.error)))
      else PlayDrafts(spec, y.(log := r.value), drafts, others, ending, k + 1)
  }

  function DriveLife(
      spec: RunSpec, x: Life, drafts: seq<Draft>, others: nat -> seq<Operation>, ending: Ending): Life
  {
    var begun := Attempt(x.log, Plain(RunStarted));
    if begun.Err? then Operate(spec, x, EndDrive(Raised(Describe(begun.error))))
    else
      var (y, e) := PlayDrafts(spec, x.(log := begun.value), drafts, others, ending, 0);
      Operate(spec, y, EndDrive(e))
  }

  lemma {:induction false} StaysStarted(spec: RunSpec, x: Life, ops: seq<Operation>)
    requires x.started
    ensures OperateAll(spec, x, ops).started
  {
    if ops != [] { StaysStarted(spec, x, ops[..|ops| - 1]); }
  }

  /** One draft of the play: the life after it, if the loop goes on. */
  lemma PlayOnce(
      spec: RunSpec, x: Life, drafts: seq<Draft>, others: nat -> seq<Operation>, ending: Ending, k: nat)
    returns (next: Option<Life>)
    requires x.started && k <= |drafts|
    ensures var y, end := OperateAll(spec, x, others(k)), PlayDrafts(spec, x, drafts, others, ending, k).0;
      if next.None? then end == y && end.started
      else
        && k < |drafts| && next.value == Operate(spec, y, Emit(drafts[k])) && next.value.started
        && end == PlayDrafts(spec, next.value, drafts, others, ending, k + 1).0
  {
    var y := OperateAll(spec, x, others(k));
    StaysStarted(spec, x, others(k));
    next := None;
    if k < |drafts| && !y.cancelling && Attempt(y.log, drafts[k]).Ok? {
      var after := EmitNext(spec, y, drafts[k]);
      next := Some(after);
    }
  }

  lemma {:induction false} PlayIsLife(
      spec: RunSpec, x: Life, drafts: seq<Draft>, others: nat -> seq<Operation>, ending: Ending, k: nat)
    returns (ops: seq<Operation>)
    requires x.started && k <= |drafts|
    ensures PlayDrafts(spec, x, drafts, others, ending, k).0 == OperateAll(spec, x, ops)
    ensures PlayDrafts(spec, x, drafts, others, ending, k).0.started
    decreases |drafts| - k
  {
    var next := PlayOnce(spec, x, drafts, others, ending, k);
    if next.None? {
      ops := others(k);
    } else {
      var rest := PlayIsLife(spec, next.value, drafts, others, ending, k + 1);
      OperateBetween(spec, x, others(k), Emit(drafts[k]), rest);
      ops := others(k) + ([Emit(drafts[k])] + rest);
    }
  }

  lemma EmitNext(spec: RunSpec, y: Life, d: Draft) returns (next: Life)
    requires y.started && Attempt(y.log, d).Ok?
    ensures next == y.(log := Attempt(y.log, d).value) == Operate(spec, y, Emit(d)) && next.started
  {
    EmitIsOperation(spec, y, d);
    next := Operate(spec, y, Emit(d));
  }

  lemma OperateBetween(spec: RunSpec, x: Life, before: seq<Operation>, op: Operation, after: seq<Operation>)
    ensures OperateAll(spec, x, before + ([op] + after)) ==
      OperateAll(spec, Operate(spec, OperateAll(spec, x, before), op), after)
  {
    var y := OperateAll(spec, x, before);
    OperateOne(spec, y, op);
    OperateAppend(spec, y, [op], after);
    OperateAppend(spec, x, before, [op] + after);
  }

  /** A drive, whatever others do meanwhile, is a sequence of operations: all that holds of lives holds of it. */
  lemma DrivesAreLives(spec: RunSpec, x: Life, drafts: seq<Draft>, others: nat -> seq<Operation>, ending: Ending)
    returns (ops: seq<Operation>)
    requires x.started
    ensures DriveLife(spec, x, drafts, others, ending) == OperateAll(spec, x, ops)
  {
    var begun := Attempt(x.log, Plain(RunStarted));
    EmitIsOperation(spec, x, Plain(RunStarted));
    if begun.Err? {
      ops := [EndDrive(Raised(Describe(begun.error)))];
      OperateOne(spec, x, ops[0]);
    } else {
      var y := Operate(spec, x, Emit(Plain(RunStarted)));
      var middle := PlayIsLife(spec, y, drafts, others, ending, 0);
      var last := EndDrive(PlayDrafts(spec, y, drafts, others, ending, 0).1);
      OperateOne(spec, x, Emit(Plain(RunStarted)));
      OperateAppend(spec, x, [Emit(Plain(RunStarted))], middle);
      OperateOne(spec, OperateAll(spec, y, middle), last);
      OperateAppend(spec, x, [Emit(Plain(RunStarted))] + middle, [last]);
      ops := ([Emit(Plain(RunStarted))] + middle) + [last];
    }
  }

  // ---------- Pauses do not matter ----------

  predicate RunLevel(p: Payload) {
    || p.RunCreated? || p.RunStarted? || p.RunPaused? || p.RunResumed? || p.RunSynthesizing?
    || p.RunCompleted? || p.RunCancelled? || p.RunFailed?
  }

  /** Two open runs that differ in nothing a runtime's events look at. */
  predicate Alike(a: RunState, b: RunState) {
    && a.workflow == b.workflow && a.tasks == b.tasks && a.agents == b.agents
    && !a.status.Terminal() && !b.status.Terminal()
  }

  predicate AlikeResults(a: RunState, b: RunState, ra: Reduced, rb: Reduced) {
    && (ra.Ok? <==> rb.Ok?)
    && (ra.Ok? ==>
        && ra.value.workflow == rb.value.workflow && ra.value.tasks == rb.value.tasks
        && ra.value.agents == rb.value.agents
        && ra.value.status == a.status && rb.value.status == b.status)
  }

  lemma TaskPayloadStep(a: RunState, b: RunState, d: Draft)
    requires a.workflow == b.workflow && a.tasks == b.tasks && a.agents == b.agents && d.payload.OnTask?
    ensures AlikeResults(a, b, ReducePayload(a, d), ReducePayload(b, d))
  {
  }

  predicate AgentLevel(p: Payload) {
    || p.LaneTool? || p.AgentRegistered? || p.AgentStarted? || p.AgentProgress? || p.AgentCompleted? || p.AgentFailed?
    || p.EvidenceAdded?
  }

  lemma AgentPayloadStep(a: RunState, b: RunState, d: Draft)
    requires a.workflow == b.workflow && a.tasks == b.tasks && a.agents == b.agents && AgentLevel(d.payload)
    ensures AlikeResults(a, b, ReducePayload(a, d), ReducePayload(b, d))
  {
  }

  lemma PayloadStep(a: RunState, b: RunState, d: Draft)
    requires a.workflow == b.workflow && a.tasks == b.tasks && a.agents == b.agents && !RunLevel(d.payload)
    ensures AlikeResults(a, b, ReducePayload(a, d), ReducePayload(b, d))
  {
    if d.payload.OnTask? {
      TaskPayloadStep(a, b, d);
    } else if AgentLevel(d.payload) {
      AgentPayloadStep(a, b, d);
    }
  }

  lemma AlikeStep(a: RunState, b: RunState, d: Draft)
    requires Alike(a, b) && !RunLevel(d.payload) && Publish(a, d).Ok?
    ensures Publish(b, d).Ok? && Alike(Publish(a, d).value, Publish(b, d).value)
  {
    PayloadStep(Counted(a, d), Counted(b, d), d);
  }

  function Counted(s: RunState, d: Draft): RunState {
    var e := Stamp(s, d);
    s.(lastSequence := e.sequence, recent := LastRecent(s.recent, RECENT - 1) + [e])
  }

  /** The journal without its pauses and resumptions. */
  function Yielded(journal: seq<Event>): seq<Draft> {
    if journal == [] then []
    else
      var before, d := Yielded(journal[..|journal| - 1]), journal[|journal| - 1].draft;
      if d.payload.RunPaused? || d.payload.RunResumed? then before else before + [d]
  }

  lemma YieldedStep(journal: seq<Event>, e: Event)
    ensures var pause := e.draft.payload.RunPaused? || e.draft.payload.RunResumed?;
      Yielded(journal + [e]) == if pause then Yielded(journal) else Yielded(journal) + [e.draft]
  {
    assert (journal + [e])[..|journal|] == journal;
  }

  /** In the middle of a drive: `shadow` is the state an undisturbed run would be in after the same drafts. */
  ghost predicate InDrive(spec: RunSpec, x: Life, shadow: RunState, yielded: seq<Draft>) {
    && Faithful(spec, x.log) && Opened(spec, x) && x.started && !x.cancelling && !x.log.closed
    && Alike(shadow, x.log.state) && Yielded(x.log.journal) == yielded
  }

  lemma PauseKeepsDrive(spec: RunSpec, x: Life, op: Operation, shadow: RunState, yielded: seq<Draft>)
    requires InDrive(spec, x, shadow, yielded) && (op.Pause? || op.Resume?)
    ensures InDrive(spec, Operate(spec, x, op), shadow, yielded)
  {
    OperationKeepsFaith(spec, x, op);
    PauseIsOperation(spec, x, op);
    var d := Offered(spec, x, op);
    if d.Some? { PauseAccepted(x.log, d.value); }
  }

  lemma PauseIsOperation(spec: RunSpec, x: Life, op: Operation)
    requires op.Pause? || op.Resume?
    ensures Operate(spec, x, op).started == x.started && Operate(spec, x, op).cancelling == x.cancelling
    ensures !x.log.closed ==> Operate(spec, x, op).log == OfferAny(x.log, Offered(spec, x, op))
    ensures var d := Offered(spec, x, op); d.Some? ==> d.value.payload.RunPaused? || d.value.payload.RunResumed?
  {
  }

  lemma PauseAccepted(log: Log, d: Draft)
    requires !log.closed && !log.state.status.Terminal() && (d.payload.RunPaused? || d.payload.RunResumed?)
    ensures var after := Offer(log, d);
      && !after.closed && Alike(log.state, after.state) && Yielded(after.journal) == Yielded(log.journal)
  {
    YieldedStep(log.journal, Stamp(log.state, d));
  }

  predicate OnlyPauses(ops: seq<Operation>) {
    forall op :: op in ops ==> op.Pause? || op.Resume?
  }

  lemma {:induction false} PausesKeepDrive(
      spec: RunSpec, x: Life, ops: seq<Operation>, shadow: RunState, yielded: seq<Draft>)
    requires InDrive(spec, x, shadow, yielded) && OnlyPauses(ops)
    ensures InDrive(spec, OperateAll(spec, x, ops), shadow, yielded)
  {
    if ops != [] {
      var front := ops[..|ops| - 1];
      PausesKeepDrive(spec, x, front, shadow, yielded);
      PauseKeepsDrive(spec, OperateAll(spec, x, front), ops[|ops| - 1], shadow, yielded);
    }
  }

  lemma DraftKeepsDrive(spec: RunSpec, x: Life, d: Draft, shadow: RunState, yielded: seq<Draft>) returns (y: Life)
    requires InDrive(spec, x, shadow, yielded) && !RunLevel(d.payload) && Publish(shadow, d).Ok?
    ensures Attempt(x.log, d).Ok? && y == x.(log := Attempt(x.log, d).value)
    ensures InDrive(spec, y, Publish(shadow, d).value, yielded + [d])
  {
    AlikeStep(shadow, x.log.state, d);
    AttemptKeepsFaith(spec, x.log, d);
    StartedStaysOpened(spec, x, d);
    YieldedStep(x.log.journal, Stamp(x.log.state, d));
    y := x.(log := Attempt(x.log, d).value);
  }

  /** The shadow after the first k drafts, and what has been journaled by then. */
  ghost predicate Played(
      spec: RunSpec, x: Life, s0: RunState, before: seq<Draft>, drafts: seq<Draft>, k: nat)
    requires k <= |drafts|
  {
    PublishAll(s0, drafts[..k]).Ok? && InDrive(spec, x, PublishAll(s0, drafts[..k]).value, before + drafts[..k])
  }

  lemma NextPlayed(spec: RunSpec, x: Life, s0: RunState, before: seq<Draft>, drafts: seq<Draft>, k: nat)
    returns (y: Life)
    requires k < |drafts| && Played(spec, x, s0, before, drafts, k) && PublishAll(s0, drafts).Ok?
    requires !RunLevel(drafts[k].payload)
    ensures Attempt(x.log, drafts[k]).Ok? && y == x.(log := Attempt(x.log, drafts[k]).value)
    ensures Played(spec, y, s0, before, drafts, k + 1)
  {
    TakeNext(drafts, k);
    assert drafts == drafts[..k + 1] + drafts[k + 1..];
    PublishAppend(s0, drafts[..k + 1], drafts[k + 1..]);
    PublishOne(s0, drafts[..k], drafts[k]);
    y := DraftKeepsDrive(spec, x, drafts[k], PublishAll(s0, drafts[..k]).value, before + drafts[..k]);
    assert (before + drafts[..k]) + [drafts[k]] == before + drafts[..k + 1];
  }

  lemma {:induction false} PlayAccepted(
      spec: RunSpec, x: Life, drafts: seq<Draft>, others: nat -> seq<Operation>, ending: Ending, k: nat,
      s0: RunState, before: seq<Draft>)
    requires k <= |drafts| && Played(spec, x, s0, before, drafts, k) && PublishAll(s0, drafts).Ok?
    requires forall i: nat :: OnlyPauses(others(i))
    requires forall i :: 0 <= i < |drafts| ==> !RunLevel(drafts[i].payload)
    ensures var (y, e) := PlayDrafts(spec, x, drafts, others, ending, k);
      e == ending && Played(spec, y, s0, before, drafts, |drafts|)
    decreases |drafts| - k
  {
    PausesKeepDrive(spec, x, others(k), PublishAll(s0, drafts[..k]).value, before + drafts[..k]);
    if k < |drafts| {
      var y := NextPlayed(spec, OperateAll(spec, x, others(k)), s0, before, drafts, k);
      PlayAccepted(spec, y, drafts, others, ending, k + 1, s0, before);
    }
  }

  // ---------- A run of the fixed workflow ----------

  /** Everything a finished run of the fixed workflow yields. */
  function FixedDagStreamOf(id: string, version: string, ts: seq<Dag.Task>, s: Scheduler.State): seq<Draft> {
    FixedDagStream.Header(id, version, ts) + s.emitted + FixedDagStream.Footer(ts, s.outcomes)
  }

  predicate NoRunLevel(drafts: seq<Draft>) {
    forall i :: 0 <= i < |drafts| ==> !RunLevel(drafts[i].payload)
  }

  lemma {:induction false} EmittedIsNotRunLevel(w: Workload.Workload, actors: seq<Scheduler.Actor>)
    ensures NoRunLevel(Scheduler.Run(w, actors).emitted)
  {
    if actors != [] {
      EmittedIsNotRunLevel(w, actors[..|actors| - 1]);
      ActIsNotRunLevel(w, Scheduler.Run(w, actors[..|actors| - 1]), actors[|actors| - 1]);
    }
  }

  lemma ActIsNotRunLevel(w: Workload.Workload, s: Scheduler.State, a: Scheduler.Actor)
    requires NoRunLevel(s.emitted)
    ensures NoRunLevel(Scheduler.Act(w, s, a).emitted)
  {
    if a.Loop? { DecisionIsNotRunLevel(w, s, Scheduler.Decide(w, s)); }
  }

  lemma DecisionIsNotRunLevel(w: Workload.Workload, s: Scheduler.State, d: Scheduler.Decision)
    requires NoRunLevel(s.emitted)
    ensures NoRunLevel(Scheduler.Perform(w, s, d).emitted)
  {
  }

  lemma StreamIsNotRunLevel(
      w: Workload.Workload, id: string, version: string, ts: seq<Dag.Task>, actors: seq<Scheduler.Actor>)
    ensures NoRunLevel(FixedDagStreamOf(id, version, ts, Scheduler.Run(w, actors)))
  {
    EmittedIsNotRunLevel(w, actors);
  }

  /** A controller that has just been started. */
  function JustStarted(spec: RunSpec): Life {
    Operate(spec, Born(spec), Begin)
  }

  lemma CreatedIsInDrive(spec: RunSpec) returns (x: Life)
    ensures x == JustStarted(spec) && InDrive(spec, x, x.log.state, [Plain(RunCreated(spec))])
    ensures FixedDagStream.ReadyToPlan(x.log.state) && x.log.state.status.Planning?
  {
    OperationKeepsFaith(spec, Born(spec), Begin);
    YieldedStep([], Stamp(Born(spec).log.state, Plain(RunCreated(spec))));
    x := JustStarted(spec);
  }

  lemma RunStartedAccepted(log: Log)
    requires !log.closed && !log.state.status.Terminal()
    ensures var after := Attempt(log, Plain(RunStarted));
      && after.Ok? && !after.value.closed && Alike(log.state, after.value.state) && after.value.state.status.RunningRun?
      && after.value.journal == log.journal + [Stamp(log.state, Plain(RunStarted))]
  {
  }

  lemma BegunIsReady(spec: RunSpec) returns (begun: Life)
    ensures JustStarted(spec).started && Attempt(JustStarted(spec).log, Plain(RunStarted)).Ok?
    ensures begun == JustStarted(spec).(log := Attempt(JustStarted(spec).log, Plain(RunStarted)).value)
    ensures InDrive(spec, begun, begun.log.state, [Plain(RunCreated(spec)), Plain(RunStarted)])
    ensures FixedDagStream.ReadyToPlan(begun.log.state) && begun.log.state.status.RunningRun?
  {
    var x := CreatedIsInDrive(spec);
    RunStartedAccepted(x.log);
    AttemptKeepsFaith(spec, x.log, Plain(RunStarted));
    StartedStaysOpened(spec, x, Plain(RunStarted));
    YieldedStep(x.log.journal, Stamp(x.log.state, Plain(RunStarted)));
    begun := x.(log := Attempt(x.log, Plain(RunStarted)).value);
  }

  /** What the end of a drive adds, when nobody asked to cancel. */
  function EndDrafts(e: Ending): seq<Draft> {
    match e
    case Finished => [Plain(RunCompleted)]
    case Interrupted => [Plain(RunCancelled)]
    case Raised(error) => [Plain(RunFailed(error))]
    case Exited => []
  }

  lemma LastEventAccepted(log: Log, p: Payload)
    requires !log.closed && !log.state.status.Terminal() && EndsRun(p)
    ensures var end := Attempt(log, Plain(p));
      && end.Ok? && end.value.journal == log.journal + [Stamp(log.state, Plain(p))]
      && end.value.state.tasks == log.state.tasks && end.value.state.status == StatusAfter(p)
      && AgentsLeft(p.RunCancelled?, log.state.agents, end.value.state.agents)
      && (p.RunFailed? ==> end.value.state.failure == Some(p.error))
  {
  }

  /** A cancellation marks the agents that were still at work; any other ending leaves them as they were. */
  predicate AgentsLeft(cancelled: bool, before: map<string, AgentState>, after: map<string, AgentState>) {
    after.Keys == before.Keys && forall a :: a in before ==> LeftAs(cancelled, before[a], after[a])
  }

  predicate LeftAs(cancelled: bool, before: AgentState, after: AgentState) {
    if cancelled && !before.status.AgentComplete? && !before.status.AgentFailure?
    then after == before.(status := AgentCancelled) else after == before
  }

  function StatusAfter(p: Payload): RunStatus {
    if p.RunCompleted? then RunComplete else if p.RunCancelled? then Cancelled else RunFailure
  }

  lemma OpenedReplays(spec: RunSpec, x: Life)
    requires Faithful(spec, x.log) && Opened(spec, x) && x.started
    ensures Replay(x.log.journal) == Ok(x.log.state)
  {
  }

  /** How a run ends that was open until its drive ended. */
  predicate EndsAs(status: RunStatus, e: Ending) {
    match e
    case Finished => status.RunComplete?
    case Interrupted => status.Cancelled?
    case Raised(_) => status.RunFailure?
    case Exited => !status.Terminal()
  }

  lemma EndAccepted(spec: RunSpec, x: Life, e: Ending, shadow: RunState, yielded: seq<Draft>)
    requires InDrive(spec, x, shadow, yielded)
    ensures var end := Operate(spec, x, EndDrive(e)).log;
      && Replay(end.journal) == Ok(end.state) && end.state.tasks == shadow.tasks && end.closed
      && EndsAs(end.state.status, e) && Yielded(end.journal) == yielded + EndDrafts(e)
      && AgentsLeft(e.Interrupted?, shadow.agents, end.state.agents)
      && (e.Raised? ==> end.state.failure == Some(e.error))
  {
    OperationKeepsFaith(spec, x, EndDrive(e));
    OpenedReplays(spec, Operate(spec, x, EndDrive(e)));
    EndIsOperation(spec, x, e);
    if e.Exited? {
      assert yielded + [] == yielded;
    } else {
      var p := EndDrafts(e)[0].payload;
      LastEventAccepted(x.log, p);
      YieldedStep(x.log.journal, Stamp(x.log.state, Plain(p)));
    }
  }

  function FailureText(ts: seq<Dag.Task>, outcomes: map<string, Workload.Outcome>): string {
    "required tasks failed: " + Workload.Join(FixedDagStream.RequiredFailures(ts, outcomes))
  }

  /** How the fixed workflow's stream ends: it raises when a required task failed or was skipped. */
  function StreamEnding(ts: seq<Dag.Task>, s: Scheduler.State): Ending {
    if FixedDagStream.RequiredFailures(ts, s.outcomes) == [] then Finished else Raised(FailureText(ts, s.outcomes))
  }

  /** What the journal of a run is worth: apart from pauses and resumptions it holds the start, exactly what the
      runtime yielded, and the one event its ending calls for; and it replays to the runtime's own verdicts. */
  ghost predicate Documents(
      spec: RunSpec, w: Workload.Workload, id: string, version: string, ts: seq<Dag.Task>, s: Scheduler.State, log: Log)
  {
    && Replay(log.journal) == Ok(log.state)
    && Yielded(log.journal) == ([Plain(RunCreated(spec)), Plain(RunStarted)] + FixedDagStreamOf(id, version, ts, s))
         + EndDrafts(StreamEnding(ts, s))
    && (log.state.status.RunComplete? || log.state.status.RunFailure?)
    && (log.state.status.RunComplete? <==> FixedDagStream.RequiredFailures(ts, s.outcomes) == [])
    && (log.state.status.RunFailure? ==> log.state.failure == Some(FailureText(ts, s.outcomes))) && log.closed
    && FixedDagStream.Reports(w, s.outcomes, log.state)
  }

  lemma ReportsCarry(w: Workload.Workload, outcomes: map<string, Workload.Outcome>, rs: RunState, rs': RunState)
    requires FixedDagStream.Reports(w, outcomes, rs)
    requires rs'.tasks == rs.tasks && AgentsLeft(false, rs.agents, rs'.agents)
    ensures FixedDagStream.Reports(w, outcomes, rs')
  {
    assert rs'.agents == rs.agents;
    forall x | x in w.graph ensures FixedDagStream.SkippedRightly(w, rs', x) {
      assert FixedDagStream.SkippedRightly(w, rs, x);
      FixedDagStream.SelectionAgrees(w.graph[x].deps, (d: string) => FixedDagStream.IsBad(rs, d),
                                     (d: string) => FixedDagStream.IsBad(rs', d));
    }
    forall a | a in rs'.agents ensures FixedDagStream.AgentTells(w, rs', a) {
      assert FixedDagStream.AgentTells(w, rs, a);
      assert FixedDagStream.OwnsBadTask(w, rs, a) <==> FixedDagStream.OwnsBadTask(w, rs', a);
    }
  }

  /** From start to finish: a run of the fixed workflow under any interleaving that reaches its end, paused and resumed
      at any points, is journaled without a refusal, completes exactly when no required task failed and fails otherwise,
      and its journal replays to the runtime's own verdict on every task. */
  lemma FixedDagRunsReplay(
      spec: RunSpec, w: Workload.Workload, id: string, version: string, ts: seq<Dag.Task>, actors: seq<Scheduler.Actor>,
      others: nat -> seq<Operation>)
    returns (log: Log)
    requires FixedDagStream.Runs(w, ts) && id != "" && version != "" && Scheduler.Run(w, actors).pc.Done?
    requires forall k: nat :: OnlyPauses(others(k))
    ensures var s := Scheduler.Run(w, actors);
      log == DriveLife(spec, JustStarted(spec), FixedDagStreamOf(id, version, ts, s), others, StreamEnding(ts, s)).log
    ensures Documents(spec, w, id, version, ts, Scheduler.Run(w, actors), log)
  {
    var s := Scheduler.Run(w, actors);
    var stream, ending := FixedDagStreamOf(id, version, ts, s), StreamEnding(ts, s);
    var begun := BegunIsReady(spec);
    var end := FixedDagStream.FinishedStreamAccepted(w, id, version, ts, begun.log.state, actors);
    StreamIsNotRunLevel(w, id, version, ts, actors);
    var before := [Plain(RunCreated(spec)), Plain(RunStarted)];
    var after := StreamPlayed(spec, begun, stream, others, ending, end, before);
    EndAccepted(spec, after, ending, end, before + stream);
    log := Operate(spec, after, EndDrive(ending)).log;
    ReportsCarry(w, s.outcomes, end, log.state);
  }

  lemma StreamPlayed(
      spec: RunSpec, begun: Life, stream: seq<Draft>, others: nat -> seq<Operation>, ending: Ending, end: RunState,
      before: seq<Draft>)
    returns (after: Life)
    requires InDrive(spec, begun, begun.log.state, before) && PublishAll(begun.log.state, stream) == Ok(end)
    requires NoRunLevel(stream) && forall k: nat :: OnlyPauses(others(k))
    ensures PlayDrafts(spec, begun, stream, others, ending, 0) == (after, ending)
    ensures InDrive(spec, after, end, before + stream)
  {
    assert stream[..0] == [] && before + stream[..0] == before;
    PlayAccepted(spec, begun, stream, others, ending, 0, begun.log.state, before);
    TakeAll(stream);
    after := PlayDrafts(spec, begun, stream, others, ending, 0).0;
  }

  /** What a run yields whose stream breaks off: the header and what its tasks emitted so far. */
  function BrokenStreamOf(id: string, version: string, ts: seq<Dag.Task>, s: Scheduler.State): seq<Draft> {
    FixedDagStream.Header(id, version, ts) + s.emitted
  }

  /** What its journal is worth: it holds exactly that, ends as what was raised decides, and replays to a task table
      in step with the scheduler's. */
  ghost predicate DocumentsBroken(
      spec: RunSpec, w: Workload.Workload, id: string, version: string, ts: seq<Dag.Task>, s: Scheduler.State,
      raised: Ending, log: Log)
  {
    && Replay(log.journal) == Ok(log.state) && log.closed && EndsAs(log.state.status, raised)
    && Yielded(log.journal) ==
       ([Plain(RunCreated(spec)), Plain(RunStarted)] + BrokenStreamOf(id, version, ts, s)) + EndDrafts(raised)
    && log.state.tasks.Keys == w.graph.Keys && log.state.agents.Keys == FixedDagStream.Owners(w)
    && (forall x :: x in w.graph ==> Simulation.Mirrors(w, s, log.state.tasks, x))
    && (raised.Raised? ==> log.state.failure == Some(raised.error))
    && if raised.Interrupted? then forall a :: a in log.state.agents ==> log.state.agents[a].status.AgentCancelled?
       else Agents.Tracks(w, s.emitted, log.state)
  }

  lemma AgentsCarry(w: Workload.Workload, drafts: seq<Draft>, rs: RunState, rs': RunState, cancelled: bool)
    requires Agents.Tracks(w, drafts, rs) && rs'.tasks == rs.tasks && AgentsLeft(cancelled, rs.agents, rs'.agents)
    ensures !cancelled ==> Agents.Tracks(w, drafts, rs')
    ensures cancelled ==> forall a :: a in rs'.agents ==> rs'.agents[a].status.AgentCancelled?
  {
    forall a | a in rs'.agents
      ensures if cancelled then rs'.agents[a].status.AgentCancelled? else Agents.Tracked(w.order, drafts, rs', a)
    {
      assert Agents.Tracked(w.order, drafts, rs, a);
    }
    forall id | id in w.graph ensures Agents.WaitsAsTold(drafts, rs', id) {
      assert Agents.WaitsAsTold(drafts, rs, id);
    }
  }

  lemma BrokenStreamIsNotRunLevel(
      w: Workload.Workload, id: string, version: string, ts: seq<Dag.Task>, actors: seq<Scheduler.Actor>)
    ensures NoRunLevel(BrokenStreamOf(id, version, ts, Scheduler.Run(w, actors)))
  {
    EmittedIsNotRunLevel(w, actors);
  }

  /** A stream that breaks off at any point of any interleaving, whatever was raised. */
  lemma BrokenRunsReplay(
      spec: RunSpec, w: Workload.Workload, id: string, version: string, ts: seq<Dag.Task>, actors: seq<Scheduler.Actor>,
      others: nat -> seq<Operation>, raised: Ending)
    returns (log: Log)
    requires FixedDagStream.Runs(w, ts) && id != "" && version != "" && forall k: nat :: OnlyPauses(others(k))
    ensures var s := Scheduler.Run(w, actors);
      log == DriveLife(spec, JustStarted(spec), BrokenStreamOf(id, version, ts, s), others, raised).log
    ensures DocumentsBroken(spec, w, id, version, ts, Scheduler.Run(w, actors), raised, log)
  {
    var stream := BrokenStreamOf(id, version, ts, Scheduler.Run(w, actors));
    var begun := BegunIsReady(spec);
    var end := FixedDagStream.ConcurrentStreamAccepted(w, id, version, ts, begun.log.state, actors);
    BrokenStreamIsNotRunLevel(w, id, version, ts, actors);
    var before := [Plain(RunCreated(spec)), Plain(RunStarted)];
    var after := StreamPlayed(spec, begun, stream, others, raised, end, before);
    EndAccepted(spec, after, raised, end, before + stream);
    log := Operate(spec, after, EndDrive(raised)).log;
    AgentsCarry(w, Scheduler.Run(w, actors).emitted, end, log.state, raised.Interrupted?);
  }

  /** With the turn loop as the tasks' body, every run that is over is journaled and replays, however the coroutines and
      pauses were timed and whatever models and tools did: to its end when no task that runs meets an answer that raises
      past the loop's handlers, and otherwise up to the task where one did. */
  lemma FixedDagAlwaysReplays(
      spec: RunSpec, w: Workload.Workload, id: string, version: string, ts: seq<Dag.Task>, actors: seq<Scheduler.Actor>,
      others: nat -> seq<Operation>, evidence: string -> seq<string>,
      scripts: (string, seq<Workload.Outcome>) -> TurnLoop.Script, m: Workload.Verdicts, raised: Ending)
    returns (log: Log)
    requires FixedDagStream.Declares(w, ts) && id != "" && version != "" && Workload.Solves(w, m)
    requires w.body == Provenance.FixedDagBody(evidence, scripts) && Scheduler.Over(Scheduler.Run(w, actors))
    requires forall k: nat :: OnlyPauses(others(k))
    ensures var s := Scheduler.Run(w, actors);
      if Provenance.NothingEscapes(w, m, evidence, scripts) then
        var stream, ending := FixedDagStreamOf(id, version, ts, s), StreamEnding(ts, s);
        && log == DriveLife(spec, JustStarted(spec), stream, others, ending).log
        && Documents(spec, w, id, version, ts, s, log)
      else
        && s.pc.Aborted? && Provenance.EscapesIn(w, m, evidence, scripts, s.pc.t.id)
        && log == DriveLife(spec, JustStarted(spec), BrokenStreamOf(id, version, ts, s), others, raised).log
        && DocumentsBroken(spec, w, id, version, ts, s, raised, log)
  {
    Provenance.FixedDagBodyIsSound(w, evidence, scripts);
    Provenance.FixedDagRunsFinishIff(w, m, evidence, scripts, actors);
    if Provenance.NothingEscapes(w, m, evidence, scripts) {
      log := FixedDagRunsReplay(spec, w, id, version, ts, actors, others);
    } else {
      log := BrokenRunsReplay(spec, w, id, version, ts, actors, others, raised);
    }
  }

  // ---------- The objects ----------

  class MemoryJournal {
    var events: seq<Event>
    var closed: bool

    constructor ()
      ensures events == [] && !closed
    {
      events, closed := [], false;
    }

    method Append(e: Event) returns (ok: bool)
      modifies this`events
      ensures ok <==> !old(closed)
      ensures events == if ok then old(events) + [e] else old(events)
    {
      if closed { return false; }
      events := events + [e];
      return true;
    }

    method Close()
      modifies this`closed
      ensures closed
    {
      closed := true;
    }
  }

  class RunController {
    const spec: RunSpec
    const journal: MemoryJournal
    var state: RunState
    var started: bool
    var cancelRequested: bool
    var journalClosed: bool

    ghost function Now(): Life
      reads this, journal
    {
      Life(Log(state, journal.events, journal.closed), started, cancelRequested)
    }

    /** The controller is always at the end of some life of its operations' making. */
    ghost predicate Valid()
      reads this, journal
    {
      Faithful(spec, Now().log) && Opened(spec, Now()) && journalClosed == journal.closed
    }

    constructor (spec: RunSpec, journal: MemoryJournal)
      requires journal.events == [] && !journal.closed
      ensures this.spec == spec && this.journal == journal
      ensures Valid() && Now() == Born(spec)
    {
      this.spec, this.journal := spec, journal;
      state, started, cancelRequested, journalClosed := InitialState(spec), false, false, false;
    }

    /** A refused draft leaves the state and the journal as they were. */
    method PublishDraft(d: Draft) returns (r: Result<Event, Refusal>)
      requires Faithful(spec, Now().log) && journalClosed == journal.closed
      modifies this`state, journal`events
      ensures Faithful(spec, Now().log)
      ensures r.Err? ==> Attempt(old(Now().log), d) == Err(r.error) && Now() == old(Now())
      ensures r.Ok? ==> r.value == Stamp(old(state), d) && Attempt(old(Now().log), d) == Ok(Now().log)
    {
      var event := Stamp(state, d);
      var next := ReduceEvent(state, event);
      if next.Err? { return Err(Invalid(next.error)); }
      var ok := journal.Append(event);
      if !ok { return Err(JournalClosed); }
      AttemptKeepsFaith(spec, old(Now().log), d);
      state := next.value;
      return Ok(event);
    }

    /** `_publish` where the caller does not look at the outcome. */
    method OfferDraft(d: Draft)
      requires Faithful(spec, Now().log) && journalClosed == journal.closed
      modifies this`state, journal`events
      ensures Faithful(spec, Now().log) && Now() == old(Now()).(log := OfferAny(old(Now().log), Some(d)))
    {
      var _ := PublishDraft(d);
    }

    method CloseJournal()
      requires Valid()
      modifies this`journalClosed, journal`closed
      ensures Valid() && Now() == old(Now()).(log := old(Now().log).(closed := true))
    {
      if !journalClosed {
        journal.Close();
        journalClosed := true;
      }
    }

    method StartRun() returns (r: Result<Event, Refusal>)
      requires Valid()
      modifies this, journal
      ensures Valid() && Now() == Operate(spec, old(Now()), Begin)
      ensures r == Err(AlreadyStarted) <==> old(started)
    {
      if started { return Err(AlreadyStarted); }
      OperationKeepsFaith(spec, Now(), Begin);
      r := PublishDraft(Plain(RunCreated(spec)));
      if r.Ok? { started := true; }
    }

    method PauseRun()
      requires Valid()
      modifies this, journal
      ensures Valid() && Now() == Operate(spec, old(Now()), Pause)
    {
      OperationKeepsFaith(spec, Now(), Pause);
      if state.status.RunningRun? || state.status.Synthesizing? {
        OfferDraft(Plain(RunPaused));
      }
    }

    method ResumeRun()
      requires Valid()
      modifies this, journal
      ensures Valid() && Now() == Operate(spec, old(Now()), Resume)
    {
      OperationKeepsFaith(spec, Now(), Resume);
      if state.status.Paused? {
        OfferDraft(Plain(RunResumed));
      }
    }

    /** Before the start a cancellation is published at once; afterwards it is a request to the driving task. */
    method CancelRun()
      requires Valid()
      modifies this, journal
      ensures Valid() && Now() == Operate(spec, old(Now()), Cancel)
    {
      CancelIsOperation(spec, Now());
      if state.status.Terminal() { return; }
      cancelRequested := true;
      if !started {
        OfferKeepsFaith(spec, Now().log, Some(Plain(RunCancelled)));
        OfferDraft(Plain(RunCancelled));
        CloseJournal();
      }
    }

    /** The end of `_drive`, whatever ended it. */
    method EndDriving(ending: Ending)
      requires Valid() && started
      modifies this, journal
      ensures Valid() && Now() == Operate(spec, old(Now()), EndDrive(ending))
    {
      OperationKeepsFaith(spec, Now(), EndDrive(ending));
      EndIsOperation(spec, Now(), ending);
      if !state.status.Terminal() {
        match ending {
          case Finished => if !cancelRequested { OfferDraft(Plain(RunCompleted)); }
          case Interrupted => OfferDraft(Plain(RunCancelled));
          case Raised(error) => OfferDraft(Plain(RunFailed(error)));
          case Exited =>
        }
      }
      CloseJournal();
    }

    method LetOtherRun(op: Operation)
      requires Valid() && started && (op.Pause? || op.Resume? || op.Cancel?)
      modifies this, journal
      ensures Valid() && started && Now() == Operate(spec, old(Now()), op)
    {
      if op.Pause? {
        PauseRun();
      } else if op.Resume? {
        ResumeRun();
      } else {
        CancelRun();
      }
    }

    /** What other coroutines do while the drive awaits the gate or the next draft. */
    method LetOthersRun(ops: seq<Operation>)
      requires Valid() && started && ByOthers(ops)
      modifies this, journal
      ensures Valid() && started && Now() == OperateAll(spec, old(Now()), ops)
    {
      for i := 0 to |ops|
        invariant Valid() && started && Now() == OperateAll(spec, old(Now()), ops[..i])
      {
        LetOtherRun(ops[i]);
        TakeNext(ops, i);
      }
      TakeAll(ops);
    }

    /** The loop of `_drive` over the drafts a runtime yields before its stream ends as `ending` says. */
    method Play(drafts: seq<Draft>, others: nat -> seq<Operation>, ending: Ending) returns (leaving: Ending)
      requires Valid() && started && forall k: nat :: ByOthers(others(k))
      modifies this, journal
      ensures Valid() && started && (Now(), leaving) == PlayDrafts(spec, old(Now()), drafts, others, ending, 0)
    {
      var k := 0;
      while k < |drafts|
        invariant k <= |drafts| && Valid() && started
        invariant PlayDrafts(spec, Now(), drafts, others, ending, k) ==
          PlayDrafts(spec, old(Now()), drafts, others, ending, 0)
        decreases |drafts| - k
      {
        var left := PlayNext(drafts, others, ending, k);
        if left.Some? { return left.value; }
        k := k + 1;
      }
      LetOthersRun(others(k));
      return ending;
    }

    /** One turn of that loop, and how it is left if it is. */
    method PlayNext(drafts: seq<Draft>, others: nat -> seq<Operation>, ghost ending: Ending, k: nat)
      returns (left: Option<Ending>)
      requires Valid() && started && k < |drafts| && ByOthers(others(k))
      modifies this, journal
      ensures Valid() && started
      ensures PlayDrafts(spec, old(Now()), drafts, others, ending, k) ==
        if left.Some? then (Now(), left.value) else PlayDrafts(spec, Now(), drafts, others, ending, k + 1)
    {
      LetOthersRun(others(k));
      if cancelRequested { return Some(Finished); }
      StartedStaysOpened(spec, Now(), drafts[k]);
      var r := PublishDraft(drafts[k]);
      return if r.Err? then Some(Raised(Describe(r.error))) else None;
    }

    method Drive(drafts: seq<Draft>, others: nat -> seq<Operation>, ending: Ending)
      requires Valid() && started && forall k: nat :: ByOthers(others(k))
      modifies this, journal
      ensures Valid() && Now() == DriveLife(spec, old(Now()), drafts, others, ending)
    {
      StartedStaysOpened(spec, Now(), Plain(RunStarted));
      var r := PublishDraft(Plain(RunStarted));
      var leaving: Ending;
      if r.Ok? {
        leaving := Play(drafts, others, ending);
      } else {
        leaving := Raised(Describe(r.error));
      }
      EndDriving(leaving);
    }
  }
}
