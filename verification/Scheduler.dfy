/** The concurrent scheduler (`_stream_concurrent_tasks`) as a state machine. The scheduler coroutine
    and the worker coroutines take turns in any order: a run is any finite sequence of actors. */
module Scheduler {
  import opened Common
  import opened Events
  import opened Workload
  import Dag

  /** What a worker puts on the queue. */
  datatype Item = WorkerEvent(id: string, move: Move) | WorkerFinished(id: string, raised: bool)

  /** `sent` items of the trace (the finish message last) are on or past the queue, `taken` past it. */
  datatype Worker = Worker(trace: Trace, sent: nat, taken: nat)

  /** Where the scheduler coroutine stands. `Skipping` and `Starting` are the two yields inside a scan,
      where other coroutines may run before the scan resumes. */
  datatype Pc =
    | Top
    | Scan(k: nat, progress: bool)
    | Skipping(t: Dag.Task)
    | Starting(t: Dag.Task, next: nat)
    | Wait
    | Done
    | Aborted(t: Dag.Task)
    | Deadlocked

  datatype State = State(
    pc: Pc,
    pending: set<string>,
    workers: map<string, Worker>,
    terminal: set<string>,
    busy: set<string>,
    outcomes: map<string, Outcome>,
    queue: seq<Item>,
    emitted: seq<Draft>,
    peak: nat)

  function Init(w: Workload): State {
    State(Top, w.graph.Keys, map[], {}, {}, map[], [], [], 0)
  }

  // ---------- The scheduler coroutine: what it decides, and what it then does ----------

  datatype Decision =
    | Stay
    | Goto(pc: Pc)
    | SkipTask(t: Dag.Task)
    | EndSkip(t: Dag.Task)
    | BeginStart(t: Dag.Task, next: nat)
    | FinishStart(t: Dag.Task, next: nat)
    | Deliver(t: Dag.Task, m: Move)
    | Retire(t: Dag.Task, raised: bool)

  predicate DependenciesTerminal(s: State, t: Dag.Task) {
    forall d :: d in t.deps ==> d in s.terminal
  }

  function DependencyOutcomes(s: State, t: Dag.Task): (r: seq<Outcome>)
    ensures |r| == |t.deps|
  {
    ReadOutcomes(s.outcomes, t.deps)
  }

  /** A scan is over: `while made_progress` runs it again or falls through to the queue. */
  function AfterScan(progress: bool): Decision {
    Goto(if progress then Scan(0, false) else Wait)
  }

  function DecideScan(w: Workload, s: State, k: nat, progress: bool): Decision {
    if k >= |w.order| then AfterScan(progress)
    else if w.order[k] !in s.pending || w.order[k] !in w.graph then Goto(Scan(k + 1, progress))
    else
      var t := w.graph[w.order[k]];
      if !DependenciesTerminal(s, t) then Goto(Scan(k + 1, progress))
      else if BlockedByFailure(t, DependencyOutcomes(s, t)) then SkipTask(t)
      else if |s.workers| >= w.slots then AfterScan(progress)
      else if t.agent in s.busy then Goto(Scan(k + 1, progress))
      else BeginStart(t, k + 1)
  }

  function DecideQueue(w: Workload, s: State): Decision {
    if s.workers == map[] then Goto(if s.pending != {} then Deadlocked else Done)
    else if s.queue == [] then Stay
    else
      var item := s.queue[0];
      if item.id !in s.workers || item.id !in w.graph then Stay
      else if item.WorkerEvent? then Deliver(w.graph[item.id], item.move)
      else Retire(w.graph[item.id], item.raised)
  }

  function Decide(w: Workload, s: State): Decision {
    match s.pc
    case Top => Goto(if s.pending == {} && s.workers == map[] then Done else Scan(0, false))
    case Scan(k, progress) => DecideScan(w, s, k, progress)
    case Skipping(t) => EndSkip(t)
    case Starting(t, next) => FinishStart(t, next)
    case Wait => DecideQueue(w, s)
    case _ => Stay
  }

  function Perform(w: Workload, s: State, d: Decision): State {
    match d
    case Stay => s
    case Goto(pc) => s.(pc := pc)
    case SkipTask(t) =>
      s.(pc := Skipping(t),
         outcomes := s.outcomes[t.id := SkippedOutcome(t, DependencyOutcomes(s, t))],
         pending := s.pending - {t.id},
         emitted := s.emitted + [TaskDraft(t, Skip(SkipReason(t, DependencyOutcomes(s, t))))])
    case EndSkip(t) => s.(pc := Scan(0, false), terminal := s.terminal + {t.id})
    case BeginStart(t, next) =>
      s.(pc := Starting(t, next),
         outcomes := s.outcomes[t.id := StartedOutcome(t, DependencyOutcomes(s, t))],
         pending := s.pending - {t.id},
         busy := s.busy + {t.agent},
         emitted := s.emitted + [TaskDraft(t, Start)])
    case FinishStart(t, next) =>
      var workers := s.workers[t.id := Worker(w.body(t, DependencyOutcomes(s, t)), 0, 0)];
      s.(pc := Scan(next, true), workers := workers, peak := if |workers| > s.peak then |workers| else s.peak)
    case Deliver(t, m) =>
      s.(pc := Top,
         queue := if s.queue == [] then [] else s.queue[1..],
         workers := Taken(s.workers, t.id),
         emitted := s.emitted + [TaskDraft(t, m)])
    case Retire(t, raised) =>
      s.(pc := if raised then Aborted(t) else Top,
         queue := if s.queue == [] then [] else s.queue[1..],
         workers := s.workers - {t.id},
         busy := s.busy - {t.agent},
         terminal := if raised then s.terminal else s.terminal + {t.id})
  }

  function Taken(workers: map<string, Worker>, id: string): map<string, Worker> {
    if id in workers then workers[id := workers[id].(taken := workers[id].taken + 1)] else workers
  }

  function LoopStep(w: Workload, s: State): State {
    Perform(w, s, Decide(w, s))
  }

  // ---------- The worker coroutines ----------

  function ItemAt(id: string, t: Trace, k: nat): Item
    requires k <= |t.steps|
  {
    if k < |t.steps| then WorkerEvent(id, t.steps[k].move) else WorkerFinished(id, t.raised)
  }

  /** No actor has a step once the run is over; an aborted run cancels its workers. */
  predicate Over(s: State) {
    s.pc.Done? || s.pc.Aborted? || s.pc.Deadlocked?
  }

  predicate CanPump(s: State, id: string) {
    !Over(s) && id in s.workers && s.workers[id].sent <= |s.workers[id].trace.steps|
  }

  /** A worker advances its body to the next event, mutating its own outcome record, and queues it. */
  function PumpStep(s: State, id: string): State {
    if !CanPump(s, id) then s
    else
      var x := s.workers[id];
      var seen := if x.sent < |x.trace.steps| then x.trace.steps[x.sent].seen else x.trace.last;
      s.(workers := s.workers[id := x.(sent := x.sent + 1)],
         outcomes := s.outcomes[id := seen],
         queue := s.queue + [ItemAt(id, x.trace, x.sent)])
  }

  // ---------- Runs ----------

  datatype Actor = Loop | Pump(id: string)

  function Act(w: Workload, s: State, a: Actor): State {
    match a
    case Loop => LoopStep(w, s)
    case Pump(id) => PumpStep(s, id)
  }

  /** Any interleaving is a sequence of actors; an actor without a step leaves the state alone. */
  function Run(w: Workload, actors: seq<Actor>): State {
    if actors == [] then Init(w) else Act(w, Run(w, actors[..|actors| - 1]), actors[|actors| - 1])
  }

  // ---------- The invariant ----------

  /** The task that is in none of `pending`, `running` and `terminal` for the moment. */
  predicate InLimbo(pc: Pc, id: string) {
    match pc
    case Skipping(t) => t.id == id
    case Starting(t, _) => t.id == id
    case Aborted(t) => t.id == id
    case _ => false
  }

  function Count(b: bool): nat {
    if b then 1 else 0
  }

  ghost predicate PlacedOnce(w: Workload, s: State, id: string) {
    Count(id in s.pending) + Count(id in s.workers) + Count(id in s.terminal) + Count(InLimbo(s.pc, id))
      == Count(id in w.graph)
  }

  /** `pending`, `running`, `terminal` and the task in hand partition the graph. */
  ghost predicate Partitioned(w: Workload, s: State) {
    forall id :: PlacedOnce(w, s, id)
  }

  /** Who owns an agent right now: the running tasks and the one being started. */
  predicate Owns(s: State, id: string) {
    id in s.workers || (s.pc.Starting? && s.pc.t.id == id)
  }

  ghost predicate OwnedAgent(w: Workload, s: State, a: string) {
    exists x :: Owns(s, x) && x in w.graph && w.graph[x].agent == a
  }

  ghost predicate NoClash(w: Workload, s: State, x: string, y: string) {
    Owns(s, x) && Owns(s, y) && x in w.graph && y in w.graph && w.graph[x].agent == w.graph[y].agent ==> x == y
  }

  /** No two owners share an agent, and `active_agents` is exactly what is owned. */
  ghost predicate AgentsExclusive(w: Workload, s: State) {
    && (forall x :: Owns(s, x) ==> x in w.graph && w.graph[x].agent in s.busy)
    && (forall x, y :: NoClash(w, s, x, y))
    && (forall a :: a in s.busy ==> OwnedAgent(w, s, a))
  }

  ghost predicate SlotsBounded(w: Workload, s: State) {
    |s.workers| <= w.slots && s.peak <= w.slots && (s.pc.Starting? ==> |s.workers| < w.slots)
  }

  /** The tasks a program counter carries are the graph's own, and a finished run has left nothing. */
  ghost predicate PcSound(w: Workload, s: State) {
    match s.pc
    case Skipping(t) => t.id in w.graph && w.graph[t.id] == t
    case Starting(t, _) => t.id in w.graph && w.graph[t.id] == t
    case Aborted(t) => t.id in w.graph && w.graph[t.id] == t
    case Done => s.pending == {} && s.workers == map[]
    case _ => true
  }

  /** Why a scan passes over a pending task: a dependency has not ended, or the task is to run (not to be
      skipped) and its agent is at work. */
  ghost predicate Held(s: State, t: Dag.Task) {
    || !DependenciesTerminal(s, t)
    || (!BlockedByFailure(t, DependencyOutcomes(s, t)) && t.agent in s.busy)
  }

  ghost predicate HeldAt(w: Workload, s: State, j: nat) {
    j < |w.order| && w.order[j] in s.pending && w.order[j] in w.graph ==> Held(s, w.graph[w.order[j]])
  }

  ghost predicate HeldBefore(w: Workload, s: State, k: nat) {
    forall j: nat {:trigger HeldAt(w, s, j)} :: j < k ==> HeldAt(w, s, j)
  }

  ghost predicate ScanSound(w: Workload, s: State) {
    match s.pc
    case Scan(k, _) => HeldBefore(w, s, k)
    case Starting(t, next) => HeldBefore(w, s, next)
    case Wait => |s.workers| >= w.slots || HeldBefore(w, s, |w.order|)
    case Deadlocked => false
    case _ => true
  }

  /** What is known of a task from the moment it may run. */
  ghost predicate Runnable(s: State, m: Verdicts, t: Dag.Task) {
    && DependenciesTerminal(s, t)
    && AllEnded(m, t.deps)
    && !BlockedByFailure(t, EndedOutcomes(m, t.deps))
  }

  ghost predicate WorkerSound(w: Workload, s: State, m: Verdicts, id: string) {
    && id in w.graph && id in s.workers
    && Runnable(s, m, w.graph[id])
    && s.workers[id].trace == w.body(w.graph[id], EndedOutcomes(m, w.graph[id].deps))
  }

  ghost predicate TerminalAgrees(s: State, m: Verdicts, id: string) {
    id in m && id in s.outcomes && m[id] == Ended(s.outcomes[id])
  }

  /** The outcome table agrees with the evaluation wherever the scheduler may read it. */
  ghost predicate OutcomesAgree(w: Workload, s: State, m: Verdicts) {
    && m.Keys == w.graph.Keys
    && (forall id {:trigger id in s.outcomes} :: id in s.outcomes <==> id in w.graph && id !in s.pending)
    && (forall id {:trigger TerminalAgrees(s, m, id)} :: id in s.terminal ==> TerminalAgrees(s, m, id))
    && (forall id {:trigger WorkerSound(w, s, m, id)} :: id in s.workers ==> WorkerSound(w, s, m, id))
    && match s.pc {
      case Skipping(t) => TerminalAgrees(s, m, t.id)
      case Starting(t, _) => Runnable(s, m, t)
      case Aborted(t) => t.id in m && m[t.id].Raises?
      case _ => true
    }
  }

  function Project(queue: seq<Item>, id: string): seq<Item> {
    if queue == [] then []
    else
      var n := |queue| - 1;
      Project(queue[..n], id) + (if queue[n].id == id then [queue[n]] else [])
  }

  function Items(id: string, t: Trace, from: nat, to: nat): seq<Item>
    requires from <= to <= |t.steps| + 1
  {
    seq(to - from, i requires 0 <= i < to - from => ItemAt(id, t, from + i))
  }

  /** First in, first out: what a worker has on the queue is the next stretch of its own trace, and a worker
      that has queued everything has left its last outcome in the table. */
  ghost predicate QueueMatches(s: State, id: string) {
    && id in s.workers
    && var x := s.workers[id];
    && x.taken <= x.sent <= |x.trace.steps| + 1
    && x.taken <= |x.trace.steps|
    && Project(s.queue, id) == Items(id, x.trace, x.taken, x.sent)
    && (x.sent == |x.trace.steps| + 1 ==> id in s.outcomes && s.outcomes[id] == x.trace.last)
  }

  ghost predicate QueueSound(s: State) {
    && (forall id {:trigger QueueMatches(s, id)} :: id in s.workers ==> QueueMatches(s, id))
    && (s.pc.Aborted? || forall i :: 0 <= i < |s.queue| ==> s.queue[i].id in s.workers)
  }

  ghost predicate Invariant(w: Workload, s: State, m: Verdicts) {
    && Partitioned(w, s)
    && PcSound(w, s)
    && AgentsExclusive(w, s)
    && SlotsBounded(w, s)
    && OutcomesAgree(w, s, m)
    && ScanSound(w, s)
    && QueueSound(s)
  }
}
