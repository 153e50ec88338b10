/** The journal checker of the automatic screen (`verify_screen_intervals` in automatic_harness.py) and the events the
    runtime emits for it (automatic_runtime.py): what acceptance means, and that every emission is accepted. */
module ScreenIntervals {
  import opened Common
  import opened Events
  import opened Waves

  const SCREEN_PREFIX := "screen-"

  // ---------- The checker ----------

  datatype Intervals = Intervals(
    active: map<string, string>,
    byAgent: map<string, string>,
    open: set<string>,
    seen: set<string>,
    peak: nat)

  datatype Fault =
    | MissingLane | StartedTwice | LaneOverlap | TooManyScreens
    | ToolStartEscaped | ToolEndEscaped | EndedOutside | EndedWithOpenTool | LeftOpen

  function NothingSeen(): Intervals {
    Intervals(map[], map[], {}, {}, 0)
  }

  predicate OfScreen(d: Draft) {
    d.payload.OnTask? && SCREEN_PREFIX <= d.payload.taskId
  }

  predicate ToolEnds(m: Move) {
    m.ToolDone? || m.ToolFail? || m.ToolReject?
  }

  predicate TaskEnds(m: Move) {
    m.Finish? || m.Fail? || m.Skip?
  }

  predicate Holds(s: Intervals, id: string, lane: string) {
    id in s.active && s.active[id] == lane
  }

  function Max(a: nat, b: nat): nat {
    if a < b then b else a
  }

  function CheckMove(s: Intervals, id: string, lane: string, m: Move): Result<Intervals, Fault> {
    if m.Start? then
      if id in s.seen || id in s.active then Err(StartedTwice)
      else if lane in s.byAgent then Err(LaneOverlap)
      else
        var active := s.active[id := lane];
        var peak := Max(s.peak, |active|);
        if peak > LOGICAL_AGENT_LANES then Err(TooManyScreens)
        else Ok(Intervals(active, s.byAgent[lane := id], s.open, s.seen + {id}, peak))
    else if m.ToolStart? then
      if !Holds(s, id, lane) || id in s.open then Err(ToolStartEscaped) else Ok(s.(open := s.open + {id}))
    else if ToolEnds(m) then
      if !Holds(s, id, lane) || id !in s.open then Err(ToolEndEscaped) else Ok(s.(open := s.open - {id}))
    else if TaskEnds(m) then
      if !Holds(s, id, lane) then Err(EndedOutside)
      else if id in s.open then Err(EndedWithOpenTool)
      else Ok(s.(active := s.active - {id}, byAgent := s.byAgent - {lane}))
    else Ok(s)
  }

  function CheckOne(s: Intervals, d: Draft): Result<Intervals, Fault> {
    if !OfScreen(d) then Ok(s)
    else if d.agent.None? || d.agent.value == "" then Err(MissingLane)
    else CheckMove(s, d.payload.taskId, d.agent.value, d.payload.move)
  }

  function CheckFrom(s: Intervals, events: seq<Draft>): Result<Intervals, Fault> {
    if events == [] then Ok(s)
    else
      var before := CheckFrom(s, events[..|events| - 1]);
      if before.Err? then before else CheckOne(before.value, events[|events| - 1])
  }

  function Verdict(events: seq<Draft>): Result<nat, Fault> {
    var end := CheckFrom(NothingSeen(), events);
    if end.Err? then Err(end.error)
    else if end.value.active != map[] || end.value.byAgent != map[] || end.value.open != {} then Err(LeftOpen)
    else Ok(end.value.peak)
  }

  lemma CheckOneMore(s: Intervals, events: seq<Draft>, d: Draft)
    ensures CheckFrom(s, events + [d]) ==
      (var before := CheckFrom(s, events); if before.Err? then before else CheckOne(before.value, d))
  {
    assert (events + [d])[..|events|] == events;
  }

  lemma {:induction false} CheckAppend(s: Intervals, a: seq<Draft>, b: seq<Draft>)
    ensures CheckFrom(s, a + b) ==
      (var before := CheckFrom(s, a); if before.Err? then before else CheckFrom(before.value, b))
  {
    if b == [] {
      assert a + b == a;
    } else {
      CheckAppend(s, a, b[..|b| - 1]);
      assert (a + b)[..|a + b| - 1] == a + b[..|b| - 1];
    }
  }

  lemma FaultsStick(s: Intervals, events: seq<Draft>, n: nat)
    requires n <= |events| && CheckFrom(s, events[..n]).Err?
    ensures CheckFrom(s, events) == CheckFrom(s, events[..n])
  {
    assert events == events[..n] + events[n..];
    CheckAppend(s, events[..n], events[n..]);
  }

  method VerifyScreenIntervals(events: seq<Draft>) returns (r: Result<nat, Fault>)
    ensures r == Verdict(events)
  {
    var active: map<string, string>, activeByAgent: map<string, string> := map[], map[];
    var openTools: set<string>, seen: set<string>, peak: nat := {}, {}, 0;
    var n := 0;
    while n < |events|
      invariant n <= |events|
      invariant CheckFrom(NothingSeen(), events[..n]) == Ok(Intervals(active, activeByAgent, openTools, seen, peak))
    {
      var d := events[n];
      CheckOneMore(NothingSeen(), events[..n], d);
      assert events[..n + 1] == events[..n] + [d];
      n := n + 1;
      if CheckFrom(NothingSeen(), events[..n]).Err? { FaultsStick(NothingSeen(), events, n); }
      if !OfScreen(d) { continue; }
      if d.agent.None? || d.agent.value == "" { return Err(MissingLane); }
      var id, lane, move := d.payload.taskId, d.agent.value, d.payload.move;
      if move.Start? {
        if id in seen || id in active { return Err(StartedTwice); }
        if lane in activeByAgent { return Err(LaneOverlap); }
        seen, active, activeByAgent := seen + {id}, active[id := lane], activeByAgent[lane := id];
        peak := Max(peak, |active|);
        if peak > LOGICAL_AGENT_LANES { return Err(TooManyScreens); }
      } else if move.ToolStart? {
        if !(id in active && active[id] == lane) || id in openTools { return Err(ToolStartEscaped); }
        openTools := openTools + {id};
      } else if ToolEnds(move) {
        if !(id in active && active[id] == lane) || id !in openTools { return Err(ToolEndEscaped); }
        openTools := openTools - {id};
      } else if TaskEnds(move) {
        if !(id in active && active[id] == lane) { return Err(EndedOutside); }
        if id in openTools { return Err(EndedWithOpenTool); }
        active, activeByAgent := active - {id}, activeByAgent - {lane};
      }
    }
    assert events[..n] == events;
    if active != map[] || activeByAgent != map[] || openTools != {} { return Err(LeftOpen); }
    return Ok(peak);
  }

  // ---------- What acceptance means ----------

  /** The screens started and not ended, with the lane each started on, read off the events alone. */
  function Running(events: seq<Draft>): map<string, string> {
    if events == [] then map[] else RunningNext(Running(events[..|events| - 1]), events[|events| - 1])
  }

  function RunningNext(running: map<string, string>, d: Draft): map<string, string> {
    if !OfScreen(d) || d.agent.None? then running
    else if d.payload.move.Start? then running[d.payload.taskId := d.agent.value]
    else if TaskEnds(d.payload.move) then running - {d.payload.taskId}
    else running
  }

  predicate OneLaneEach(running: map<string, string>) {
    forall x, y :: x in running && y in running && running[x] == running[y] ==> x == y
  }

  predicate StartsScreen(d: Draft, id: string) {
    OfScreen(d) && d.payload.taskId == id && d.payload.move.Start?
  }

  predicate Started(events: seq<Draft>, id: string) {
    exists i :: 0 <= i < |events| && StartsScreen(events[i], id)
  }

  /** `active_by_agent` is the inverse of `active`. */
  predicate Inverse(active: map<string, string>, byAgent: map<string, string>) {
    && (forall x :: x in active ==> active[x] in byAgent && byAgent[active[x]] == x)
    && (forall lane :: lane in byAgent ==> byAgent[lane] in active && active[byAgent[lane]] == lane)
  }

  predicate Coherent(s: Intervals) {
    && Inverse(s.active, s.byAgent)
    && s.open <= s.active.Keys <= s.seen
    && |s.active| <= s.peak <= LOGICAL_AGENT_LANES
  }

  lemma MoveStaysCoherent(s: Intervals, id: string, lane: string, m: Move)
    requires Coherent(s) && CheckMove(s, id, lane, m).Ok?
    ensures Coherent(CheckMove(s, id, lane, m).value)
  {
    if m.Start? {
      InverseGrows(s.active, s.byAgent, id, lane);
      StartIsSeen(s, id, lane);
    } else if TaskEnds(m) && !ToolEnds(m) && !m.ToolStart? {
      MapSize(s.active, id, lane);
      InverseShrinks(s.active, s.byAgent, id, lane);
    }
  }

  lemma InverseGrows(active: map<string, string>, byAgent: map<string, string>, id: string, lane: string)
    requires Inverse(active, byAgent) && id !in active && lane !in byAgent
    ensures Inverse(active[id := lane], byAgent[lane := id])
  {
  }

  lemma InverseShrinks(active: map<string, string>, byAgent: map<string, string>, id: string, lane: string)
    requires Inverse(active, byAgent) && id in active && active[id] == lane
    ensures Inverse(active - {id}, byAgent - {lane})
  {
  }

  lemma StartIsSeen(s: Intervals, id: string, lane: string)
    requires s.open <= s.active.Keys <= s.seen
    ensures s.open <= s.active[id := lane].Keys <= s.seen + {id}
  {
  }

  lemma CheckedStaysCoherent(s: Intervals, d: Draft)
    requires Coherent(s) && CheckOne(s, d).Ok?
    ensures Coherent(CheckOne(s, d).value)
    ensures CheckOne(s, d).value.active == RunningNext(s.active, d)
    ensures CheckOne(s, d).value.peak == s.peak || CheckOne(s, d).value.peak == |CheckOne(s, d).value.active|
  {
    if OfScreen(d) { MoveStaysCoherent(s, d.payload.taskId, d.agent.value, d.payload.move); }
  }

  lemma LastCheck(events: seq<Draft>) returns (before: Intervals)
    requires events != [] && CheckFrom(NothingSeen(), events).Ok?
    ensures CheckFrom(NothingSeen(), events[..|events| - 1]) == Ok(before)
    ensures CheckOne(before, events[|events| - 1]) == CheckFrom(NothingSeen(), events)
  {
    before := CheckFrom(NothingSeen(), events[..|events| - 1]).value;
  }

  lemma StartedStep(events: seq<Draft>, id: string)
    requires events != []
    ensures Started(events, id) <==> Started(events[..|events| - 1], id) || StartsScreen(events[|events| - 1], id)
  {
    var front := events[..|events| - 1];
    if i :| 0 <= i < |front| && StartsScreen(front[i], id) { assert StartsScreen(events[i], id); }
    if i :| 0 <= i < |front| && StartsScreen(events[i], id) { assert StartsScreen(front[i], id); }
  }

  /** Whatever the checker has accepted so far: its tables are the running screens, and nothing has overlapped. */
  lemma {:induction false} AcceptedSoFar(events: seq<Draft>)
    requires CheckFrom(NothingSeen(), events).Ok?
    ensures Coherent(CheckFrom(NothingSeen(), events).value)
    ensures CheckFrom(NothingSeen(), events).value.active == Running(events)
  {
    if events != [] {
      var before := LastCheck(events);
      AcceptedSoFar(events[..|events| - 1]);
      CheckedStaysCoherent(before, events[|events| - 1]);
    }
  }

  lemma {:induction false} SeenAreStarted(events: seq<Draft>, id: string)
    requires CheckFrom(NothingSeen(), events).Ok?
    ensures id in CheckFrom(NothingSeen(), events).value.seen <==> Started(events, id)
  {
    if events != [] {
      SeenAreStarted(events[..|events| - 1], id);
      StartedStep(events, id);
    }
  }

  /** In an accepted journal no more screens ever run at once than the reported peak, at most eight, each on a lane of
      its own; all of them have ended by the end. */
  lemma AcceptedJournalsAreBounded(events: seq<Draft>, n: nat)
    requires Verdict(events).Ok? && n <= |events|
    ensures |Running(events[..n])| <= Verdict(events).value <= LOGICAL_AGENT_LANES
    ensures OneLaneEach(Running(events[..n])) && Running(events) == map[]
  {
    if CheckFrom(NothingSeen(), events[..n]).Err? { FaultsStick(NothingSeen(), events, n); }
    AcceptedSoFar(events[..n]);
    AcceptedSoFar(events);
    PeakGrows(events, n);
    var running, byAgent := Running(events[..n]), CheckFrom(NothingSeen(), events[..n]).value.byAgent;
    forall x, y | x in running && y in running && running[x] == running[y] ensures x == y {
      assert byAgent[running[x]] == x && byAgent[running[y]] == y;
    }
  }

  lemma {:induction false} PeakGrows(events: seq<Draft>, n: nat)
    requires n <= |events| && CheckFrom(NothingSeen(), events).Ok?
    ensures CheckFrom(NothingSeen(), events[..n]).Ok?
    ensures CheckFrom(NothingSeen(), events[..n]).value.peak <= CheckFrom(NothingSeen(), events).value.peak
    decreases |events| - n
  {
    if n == |events| {
      assert events[..n] == events;
    } else {
      assert events[..n + 1][..n] == events[..n];
      PeakGrows(events, n + 1);
    }
  }

  /** The reported peak is reached. */
  lemma {:induction false} PeakIsReached(events: seq<Draft>)
    requires CheckFrom(NothingSeen(), events).Ok?
    ensures exists n :: 0 <= n <= |events| && |Running(events[..n])| == CheckFrom(NothingSeen(), events).value.peak
  {
    if events == [] {
      assert |Running(events[..0])| == 0;
    } else {
      var front, peak := events[..|events| - 1], CheckFrom(NothingSeen(), events).value.peak;
      PeakIsReached(front);
      var n :| 0 <= n <= |front| && |Running(front[..n])| == CheckFrom(NothingSeen(), front).value.peak;
      assert events[..n] == front[..n] && events[..|events|] == events;
      PeakStep(events);
    }
  }

  lemma PeakStep(events: seq<Draft>)
    requires events != [] && CheckFrom(NothingSeen(), events).Ok?
    ensures var before, after := CheckFrom(NothingSeen(), events[..|events| - 1]), CheckFrom(NothingSeen(), events);
      before.Ok? && (after.value.peak == before.value.peak || after.value.peak == |Running(events)|)
  {
    var before := LastCheck(events);
    AcceptedSoFar(events[..|events| - 1]);
    AcceptedSoFar(events);
    CheckedStaysCoherent(before, events[|events| - 1]);
  }

  // ---------- Exactly which journals are accepted ----------

  /** The screen's last tool event started a tool. */
  predicate ToolOpen(events: seq<Draft>, id: string) {
    events != []
    && var d := events[|events| - 1];
      if OfScreen(d) && d.payload.taskId == id && (d.payload.move.ToolStart? || ToolEnds(d.payload.move))
      then d.payload.move.ToolStart? else ToolOpen(events[..|events| - 1], id)
  }

  predicate LaneTaken(events: seq<Draft>, lane: string) {
    exists x :: x in Running(events) && Running(events)[x] == lane
  }

  /** A start is the screen's first, on a free lane, with fewer than eight screens running; a tool starts and ends, and
      the screen ends, while it runs on that lane; the tool's events alternate, and no tool is open at the end. */
  predicate FitsMove(
      running: map<string, string>, started: bool, taken: bool, open: bool, id: string, lane: string, m: Move)
  {
    && (m.Start? ==> !started && !taken && |running| < 8)
    && (m.ToolStart? || ToolEnds(m) || TaskEnds(m) ==> id in running && running[id] == lane)
    && (m.ToolStart? || TaskEnds(m) ==> !open)
    && (ToolEnds(m) ==> open)
  }

  /** What a screen event must meet, given all events before it. */
  predicate Fits(before: seq<Draft>, d: Draft) {
    !OfScreen(d) ||
    (d.agent.Some? && d.agent.value != ""
     && var id, lane := d.payload.taskId, d.agent.value;
      FitsMove(Running(before), Started(before, id), LaneTaken(before, lane), ToolOpen(before, id), id, lane,
               d.payload.move))
  }

  ghost predicate AllFit(events: seq<Draft>) {
    forall k: nat :: k < |events| ==> FitsAt(events, k)
  }

  predicate FitsAt(events: seq<Draft>, k: nat) {
    k < |events| && Fits(events[..k], events[k])
  }

  lemma AllFitStep(events: seq<Draft>)
    requires events != []
    ensures AllFit(events) <==> AllFit(events[..|events| - 1]) && Fits(events[..|events| - 1], events[|events| - 1])
  {
    var n := |events| - 1;
    forall k: nat | k < n ensures FitsAt(events, k) <==> FitsAt(events[..n], k) {
      assert events[..n][..k] == events[..k];
    }
    if AllFit(events[..n]) && Fits(events[..n], events[n]) {
      forall k: nat | k < |events| ensures FitsAt(events, k) {
        if k < n { assert FitsAt(events[..n], k); }
      }
    }
    if AllFit(events) {
      assert FitsAt(events, n);
      forall k: nat | k < n ensures FitsAt(events[..n], k) { assert FitsAt(events, k); }
    }
  }

  /** The tables say what the history says. */
  ghost predicate TablesTell(events: seq<Draft>, s: Intervals) {
    && Coherent(s) && s.active == Running(events)
    && (forall id :: id in s.seen <==> Started(events, id))
    && (forall id :: id in s.open <==> ToolOpen(events, id))
  }

  lemma MoveFits(s: Intervals, id: string, lane: string, m: Move)
    requires Coherent(s)
    ensures CheckMove(s, id, lane, m).Ok? <==>
      FitsMove(s.active, id in s.seen, lane in s.byAgent, id in s.open, id, lane, m)
  {
    if m.Start? { StartFits(s, id, lane); }
  }

  lemma StartFits(s: Intervals, id: string, lane: string)
    requires Coherent(s)
    ensures CheckMove(s, id, lane, Start).Ok? <==> id !in s.seen && lane !in s.byAgent && |s.active| < 8
  {
    if id !in s.active { MapSize(s.active, id, lane); }
  }

  lemma LanesTell(active: map<string, string>, byAgent: map<string, string>, lane: string)
    requires Inverse(active, byAgent)
    ensures lane in byAgent <==> exists x :: x in active && active[x] == lane
  {
    if lane in byAgent { assert active[byAgent[lane]] == lane; }
  }

  lemma CheckFits(before: seq<Draft>, s: Intervals, d: Draft)
    requires TablesTell(before, s)
    ensures CheckOne(s, d).Ok? <==> Fits(before, d)
  {
    if OfScreen(d) && d.agent.Some? {
      LanesTell(s.active, s.byAgent, d.agent.value);
      MoveFits(s, d.payload.taskId, d.agent.value, d.payload.move);
    }
  }

  lemma OpenAfter(s: Intervals, id: string, lane: string, m: Move, x: string)
    requires CheckMove(s, id, lane, m).Ok?
    ensures x in CheckMove(s, id, lane, m).value.open <==>
      if x == id && (m.ToolStart? || ToolEnds(m)) then m.ToolStart? else x in s.open
  {
  }

  lemma OpenStep(events: seq<Draft>, before: Intervals, id: string)
    requires events != [] && CheckOne(before, events[|events| - 1]).Ok?
    requires id in before.open <==> ToolOpen(events[..|events| - 1], id)
    ensures id in CheckOne(before, events[|events| - 1]).value.open <==> ToolOpen(events, id)
  {
    var d := events[|events| - 1];
    if OfScreen(d) { OpenAfter(before, d.payload.taskId, d.agent.value, d.payload.move, id); }
  }

  lemma {:induction false} ChecksFit(events: seq<Draft>)
    ensures CheckFrom(NothingSeen(), events).Ok? <==> AllFit(events)
    ensures CheckFrom(NothingSeen(), events).Ok? ==> TablesTell(events, CheckFrom(NothingSeen(), events).value)
  {
    if events != [] {
      var front, d := events[..|events| - 1], events[|events| - 1];
      ChecksFit(front);
      AllFitStep(events);
      if CheckFrom(NothingSeen(), front).Ok? {
        var s := CheckFrom(NothingSeen(), front).value;
        CheckFits(front, s, d);
        if CheckOne(s, d).Ok? {
          AcceptedSoFar(events);
          forall id ensures id in CheckOne(s, d).value.seen <==> Started(events, id) { SeenAreStarted(events, id); }
          forall id ensures id in CheckOne(s, d).value.open <==> ToolOpen(events, id) { OpenStep(events, s, id); }
        }
      }
    }
  }

  /** A journal is accepted exactly when every event fits and nothing is left running. */
  lemma AcceptedIff(events: seq<Draft>)
    ensures Verdict(events).Ok? <==> AllFit(events) && Running(events) == map[]
  {
    ChecksFit(events);
  }

  lemma StartedOnce(events: seq<Draft>, i: nat, j: nat, id: string)
    requires Verdict(events).Ok? && i < |events| && j < |events|
    requires StartsScreen(events[i], id) && StartsScreen(events[j], id)
    ensures i == j
  {
    if i < j {
      SecondStartRefused(events, i, j, id);
    } else if j < i {
      SecondStartRefused(events, j, i, id);
    }
  }

  lemma SecondStartRefused(events: seq<Draft>, i: nat, j: nat, id: string)
    requires i < j < |events| && StartsScreen(events[i], id) && StartsScreen(events[j], id)
    ensures Verdict(events).Err?
  {
    if CheckFrom(NothingSeen(), events).Ok? {
      PeakGrows(events, j);
      PeakGrows(events, j + 1);
      SeenAreStarted(events[..j], id);
      assert StartsScreen(events[..j][i], id);
      assert events[..j + 1][..j] == events[..j];
    }
  }

  // ---------- Events of no concern ----------

  function ScreensOnly(events: seq<Draft>): seq<Draft> {
    if events == [] then []
    else
      var n := |events| - 1;
      ScreensOnly(events[..n]) + (if OfScreen(events[n]) then [events[n]] else [])
  }

  /** Evidence, progress, diligence and validation events between the screens make no difference. */
  lemma {:induction false} OtherEventsDoNotMatter(s: Intervals, events: seq<Draft>)
    ensures CheckFrom(s, events) == CheckFrom(s, ScreensOnly(events))
  {
    if events != [] {
      var n := |events| - 1;
      OtherEventsDoNotMatter(s, events[..n]);
      if OfScreen(events[n]) {
        CheckOneMore(s, ScreensOnly(events[..n]), events[n]);
      } else {
        assert ScreensOnly(events) == ScreensOnly(events[..n]);
      }
    }
  }

  // ---------- The emission ----------

  /** `lane_by_ticker` and the screen task of each ticker. */
  datatype Plan = Plan(lanes: Lanes, tasks: map<string, string>)

  ghost predicate ValidPlan(p: Plan) {
    && p.tasks.Keys == p.lanes.Keys
    && (forall x :: x in p.tasks ==> SCREEN_PREFIX <= p.tasks[x] && p.lanes[x] != "")
    && (forall x, y :: TasksDiffer(p, x, y))
  }

  predicate TasksDiffer(p: Plan, x: string, y: string) {
    x in p.tasks && y in p.tasks && p.tasks[x] == p.tasks[y] ==> x == y
  }

  /** What the analysis of an issuer returns, with the text of its gaps if it has any, or raises. */
  datatype Analysis = Calculated(gaps: Option<string>, output: string) | CalculationFailed(error: string)

  function Of(p: Plan, x: string, m: Move): Draft
    requires x in p.lanes && x in p.tasks
  {
    Draft(Some(p.lanes[x]), OnTask(p.tasks[x], m))
  }

  function CollectionFailure(p: Plan, x: string, error: string): seq<Draft>
    requires x in p.lanes && x in p.tasks
  {
    [Of(p, x, Start), Of(p, x, Fail(None, error))]
  }

  function ScreenStart(p: Plan, x: string): seq<Draft>
    requires x in p.lanes && x in p.tasks
  {
    [Of(p, x, Start), Of(p, x, ToolStart)]
  }

  function ScreenEnd(p: Plan, x: string, a: Analysis): seq<Draft>
    requires x in p.lanes && x in p.tasks
  {
    match a
    case Calculated(gaps, output) => [Of(p, x, ToolDone), Of(p, x, Finish(gaps.Some?, Some(output), gaps))]
    case CalculationFailed(error) => [Of(p, x, ToolFail(error)), Of(p, x, Fail(None, error))]
  }

  predicate Planned(p: Plan, xs: seq<string>) {
    forall x :: x in xs ==> x in p.lanes && x in p.tasks
  }

  function Starts(p: Plan, wave: seq<string>, n: nat): seq<Draft>
    requires Planned(p, wave) && n <= |wave|
  {
    if n == 0 then [] else Starts(p, wave, n - 1) + ScreenStart(p, wave[n - 1])
  }

  function Ends(p: Plan, wave: seq<string>, results: string -> Analysis, n: nat): seq<Draft>
    requires Planned(p, wave) && n <= |wave|
  {
    if n == 0 then [] else Ends(p, wave, results, n - 1) + ScreenEnd(p, wave[n - 1], results(wave[n - 1]))
  }

  function WaveEvents(p: Plan, wave: seq<string>, results: string -> Analysis): seq<Draft>
    requires Planned(p, wave)
  {
    Starts(p, wave, |wave|) + Ends(p, wave, results, |wave|)
  }

  predicate AllPlanned(p: Plan, waves: seq<seq<string>>) {
    forall i :: 0 <= i < |waves| ==> Planned(p, waves[i])
  }

  function Screens(p: Plan, waves: seq<seq<string>>, results: string -> Analysis): seq<Draft>
    requires AllPlanned(p, waves)
  {
    if waves == [] then [] else WaveEvents(p, waves[0], results) + Screens(p, waves[1..], results)
  }

  function FailureEvents(p: Plan, failed: seq<string>, reason: string -> string): seq<Draft>
    requires Planned(p, failed)
  {
    if failed == [] then []
    else
      var n := |failed| - 1;
      FailureEvents(p, failed[..n], reason) + CollectionFailure(p, failed[n], reason(failed[n]))
  }

  /** Those among the tickers that satisfy the test, in order. */
  function Select(tickers: seq<string>, ready: set<string>, wanted: bool): (r: seq<string>)
    ensures forall x :: x in r <==> x in tickers && (x in ready) == wanted
  {
    if tickers == [] then []
    else
      var n := |tickers| - 1;
      assert tickers == tickers[..n] + [tickers[n]];
      Select(tickers[..n], ready, wanted) + (if (tickers[n] in ready) == wanted then [tickers[n]] else [])
  }

  lemma {:induction false} SelectIsUnique(tickers: seq<string>, ready: set<string>, wanted: bool)
    requires Unique(tickers)
    ensures Unique(Select(tickers, ready, wanted))
  {
    if tickers != [] {
      var n := |tickers| - 1;
      UniquePrefix(tickers, n);
      SelectIsUnique(tickers[..n], ready, wanted);
      if (tickers[n] in ready) == wanted {
        UniqueAppend(Select(tickers[..n], ready, wanted), tickers[n]);
      } else {
        assert Select(tickers, ready, wanted) == Select(tickers[..n], ready, wanted);
      }
    }
  }

  /** One collection batch: the tickers asked for, and those with evidence. */
  datatype Collection = Collection(requested: seq<string>, issuers: set<string>)

  function RequestedIn(batches: seq<Collection>): seq<string> {
    if batches == [] then [] else RequestedIn(batches[..|batches| - 1]) + batches[|batches| - 1].requested
  }

  /** `ready_by_ticker` after the batches. */
  function ReadyIn(batches: seq<Collection>): set<string> {
    if batches == [] then {} else ReadyIn(batches[..|batches| - 1]) + batches[|batches| - 1].issuers
  }

  function FailedOf(b: Collection): seq<string> {
    Select(b.requested, b.issuers, false)
  }

  /** Each batch's tickers without evidence of its own. */
  function FailedIn(batches: seq<Collection>): seq<string> {
    if batches == [] then [] else FailedIn(batches[..|batches| - 1]) + FailedOf(batches[|batches| - 1])
  }

  /** A batch only brings evidence it was asked for. */
  predicate OwnIssuers(batches: seq<Collection>) {
    forall b :: b in batches ==> b.issuers <= Elements(b.requested)
  }

  lemma {:induction false} FailedAreRequested(batches: seq<Collection>)
    ensures forall x :: x in FailedIn(batches) ==> x in RequestedIn(batches)
  {
    if batches != [] { FailedAreRequested(batches[..|batches| - 1]); }
  }

  lemma {:induction false} SelectAppend(a: seq<string>, b: seq<string>, ready: set<string>, wanted: bool)
    ensures Select(a + b, ready, wanted) == Select(a, ready, wanted) + Select(b, ready, wanted)
  {
    if b == [] {
      assert a + b == a;
    } else {
      var n := |b| - 1;
      SelectAppend(a, b[..n], ready, wanted);
      assert (a + b)[..|a + b| - 1] == a + b[..n];
    }
  }

  lemma {:induction false} SelectAgrees(tickers: seq<string>, ready: set<string>, ready': set<string>, wanted: bool)
    requires forall x :: x in tickers ==> (x in ready <==> x in ready')
    ensures Select(tickers, ready, wanted) == Select(tickers, ready', wanted)
  {
    if tickers != [] { SelectAgrees(tickers[..|tickers| - 1], ready, ready', wanted); }
  }

  lemma UniqueParts<T>(a: seq<T>, b: seq<T>)
    requires Unique(a + b)
    ensures Unique(a) && forall x :: x in a ==> x !in b
  {
    forall i, j | 0 <= i < j < |a| ensures Differ(a, i, j) { assert Differ(a + b, i, j); }
    forall i, j | 0 <= i < |a| && 0 <= j < |b| ensures a[i] != b[j] { assert Differ(a + b, i, |a| + j); }
  }

  /** When no ticker is asked for twice, testing each batch against its own evidence is testing all against all. */
  lemma {:induction false} BatchesAsOne(batches: seq<Collection>)
    requires Unique(RequestedIn(batches)) && OwnIssuers(batches)
    ensures FailedIn(batches) == Select(RequestedIn(batches), ReadyIn(batches), false)
    ensures ReadyIn(batches) <= Elements(RequestedIn(batches))
  {
    if batches != [] {
      var front, b := batches[..|batches| - 1], batches[|batches| - 1];
      UniqueParts(RequestedIn(front), b.requested);
      BatchesAsOne(front);
      SelectAppend(RequestedIn(front), b.requested, ReadyIn(batches), false);
      SelectAgrees(RequestedIn(front), ReadyIn(front), ReadyIn(batches), false);
      SelectAgrees(b.requested, b.issuers, ReadyIn(batches), false);
    }
  }

  /** Everything a screen emits: a start and an end for each ticker whose collection failed, batch by batch, then the
      waves over the members that are ready. */
  function Emission(
      p: Plan, batches: seq<Collection>, members: seq<string>, limit: nat,
      reason: string -> string, results: string -> Analysis): seq<Draft>
    requires ValidPlan(p) && Planned(p, RequestedIn(batches)) && Planned(p, members) && limit > 0
  {
    var ready := Select(members, ReadyIn(batches), true);
    FailedAreRequested(batches);
    ScheduleIsPlanned(p, limit, ready);
    FailureEvents(p, FailedIn(batches), reason) + Screens(p, Schedule(p.lanes, limit, ready), results)
  }

  lemma {:induction false} ScheduleIsPlanned(p: Plan, limit: nat, pending: seq<string>)
    requires ValidPlan(p) && Planned(p, pending) && limit > 0
    ensures AllPlanned(p, Schedule(p.lanes, limit, pending))
    decreases |pending|
  {
    if pending != [] {
      ScheduleIsPlanned(p, limit, Sweep(p.lanes, limit, pending).deferred);
    }
  }

  method EmitWave(p: Plan, wave: seq<string>, results: string -> Analysis) returns (events: seq<Draft>)
    requires Planned(p, wave)
    ensures events == WaveEvents(p, wave, results)
  {
    events := [];
    for i := 0 to |wave|
      invariant events == Starts(p, wave, i)
    {
      events := events + [Of(p, wave[i], Start), Of(p, wave[i], ToolStart)];
    }
    for i := 0 to |wave|
      invariant events == Starts(p, wave, |wave|) + Ends(p, wave, results, i)
    {
      var end := EmitEnd(p, wave[i], results(wave[i]));
      events := events + end;
    }
  }

  /** The result of one screen: its tool's end and its own. */
  method EmitEnd(p: Plan, x: string, a: Analysis) returns (events: seq<Draft>)
    requires x in p.lanes && x in p.tasks
    ensures events == ScreenEnd(p, x, a)
  {
    match a {
      case CalculationFailed(error) => events := [Of(p, x, ToolFail(error)), Of(p, x, Fail(None, error))];
      case Calculated(gaps, output) => events := [Of(p, x, ToolDone), Of(p, x, Finish(gaps.Some?, Some(output), gaps))];
    }
  }

  /** The failures of one batch, after those of the batches before. */
  method EmitFailures(p: Plan, b: Collection, reason: string -> string, ghost before: seq<string>, start: seq<Draft>)
    returns (events: seq<Draft>)
    requires Planned(p, before) && Planned(p, b.requested) && start == FailureEvents(p, before, reason)
    ensures Planned(p, before + FailedOf(b)) && events == FailureEvents(p, before + FailedOf(b), reason)
  {
    events := start;
    assert before + Select(b.requested[..0], b.issuers, false) == before;
    for i := 0 to |b.requested|
      invariant Planned(p, before + Select(b.requested[..i], b.issuers, false))
      invariant events == FailureEvents(p, before + Select(b.requested[..i], b.issuers, false), reason)
    {
      var x := b.requested[i];
      FailureStep(p, before + Select(b.requested[..i], b.issuers, false), x, reason);
      SelectedNext(b, i, before);
      if x !in b.issuers {
        events := events + [Of(p, x, Start), Of(p, x, Fail(None, reason(x)))];
      }
    }
    TakeAll(b.requested);
  }

  lemma SelectedNext(b: Collection, i: nat, before: seq<string>)
    requires i < |b.requested|
    ensures var failed := before + Select(b.requested[..i], b.issuers, false);
      before + Select(b.requested[..i + 1], b.issuers, false) ==
        if b.requested[i] in b.issuers then failed else failed + [b.requested[i]]
  {
    TakeNext(b.requested, i);
    var earlier := Select(b.requested[..i], b.issuers, false);
    assert before + (earlier + [b.requested[i]]) == (before + earlier) + [b.requested[i]];
  }

  /** `async for batch in ...iter_collect_manifest(...)` */
  method EmitCollections(p: Plan, batches: seq<Collection>, reason: string -> string)
    returns (events: seq<Draft>, ready: set<string>)
    requires Planned(p, RequestedIn(batches))
    ensures Planned(p, FailedIn(batches)) && events == FailureEvents(p, FailedIn(batches), reason)
    ensures ready == ReadyIn(batches)
  {
    events, ready := [], {};
    for i := 0 to |batches|
      invariant Planned(p, FailedIn(batches[..i])) && events == FailureEvents(p, FailedIn(batches[..i]), reason)
      invariant ready == ReadyIn(batches[..i])
    {
      RequestedOf(batches, i);
      events := EmitFailures(p, batches[i], reason, FailedIn(batches[..i]), events);
      ready := ready + batches[i].issuers;
      TakeNext(batches, i);
    }
    TakeAll(batches);
  }

  lemma {:induction false} RequestedOf(batches: seq<Collection>, i: nat)
    requires i < |batches|
    ensures forall x :: x in batches[i].requested ==> x in RequestedIn(batches)
  {
    if i < |batches| - 1 { RequestedOf(batches[..|batches| - 1], i); }
  }

  /** The events of one screen that the checker looks at, as the runtime yields them. */
  method EmitScreen(
      p: Plan, batches: seq<Collection>, members: seq<string>, activeSlots: int,
      reason: string -> string, results: string -> Analysis) returns (events: Result<seq<Draft>, WaveError>)
    requires ValidPlan(p) && Planned(p, RequestedIn(batches)) && Planned(p, members)
    ensures activeSlots < 1 ==> events == Err(SlotsNotPositive)
    ensures activeSlots >= 1 ==> events == Ok(Emission(p, batches, members, WaveLimit(activeSlots), reason, results))
  {
    var failures, ready := EmitCollections(p, batches, reason);
    var waves := AnalysisWaves(Select(members, ready, true), activeSlots, p.lanes);
    if waves.Err? { return Err(waves.error); }
    ScheduleIsPlanned(p, WaveLimit(activeSlots), Select(members, ready, true));
    var screens := EmitWaves(p, waves.value, results);
    return Ok(failures + screens);
  }

  method EmitWaves(p: Plan, waves: seq<seq<string>>, results: string -> Analysis) returns (events: seq<Draft>)
    requires AllPlanned(p, waves)
    ensures events == Screens(p, waves, results)
  {
    events := [];
    for i := 0 to |waves|
      invariant AllPlanned(p, waves[i..])
      invariant events + Screens(p, waves[i..], results) == Screens(p, waves, results)
    {
      var block := EmitWave(p, waves[i], results);
      NextScreens(p, waves, i, results, events);
      events := events + block;
    }
    assert events + [] == events;
  }

  lemma NextScreens(p: Plan, waves: seq<seq<string>>, i: nat, results: string -> Analysis, events: seq<Draft>)
    requires AllPlanned(p, waves) && i < |waves|
    ensures AllPlanned(p, waves[i..]) && AllPlanned(p, waves[i + 1..])
    ensures events + Screens(p, waves[i..], results) ==
      (events + WaveEvents(p, waves[i], results)) + Screens(p, waves[i + 1..], results)
  {
    DropNext(waves, i);
    var block, rest := WaveEvents(p, waves[i], results), Screens(p, waves[i + 1..], results);
    assert events + (block + rest) == (events + block) + rest;
  }

  lemma FailureStep(p: Plan, failed: seq<string>, x: string, reason: string -> string)
    requires Planned(p, failed) && x in p.lanes && x in p.tasks
    ensures Planned(p, failed + [x])
    ensures FailureEvents(p, failed + [x], reason) ==
      FailureEvents(p, failed, reason) + CollectionFailure(p, x, reason(x))
  {
    assert (failed + [x])[..|failed|] == failed;
  }

  // ---------- Every emission is accepted ----------

  function TaskSet(p: Plan, xs: seq<string>): set<string>
    requires Planned(p, xs)
  {
    set x | x in xs :: p.tasks[x]
  }

  predicate OnOwnLanes(p: Plan, xs: seq<string>, active: map<string, string>) {
    forall x :: x in xs ==> OnOwnLane(p, x, active)
  }

  predicate OnOwnLane(p: Plan, x: string, active: map<string, string>) {
    x in p.tasks && x in p.lanes && p.tasks[x] in active && active[p.tasks[x]] == p.lanes[x]
  }

  lemma OwnLanesGrow(p: Plan, xs: seq<string>, active: map<string, string>, x: string)
    requires ValidPlan(p) && OnOwnLanes(p, xs, active) && x in p.tasks
    ensures OnOwnLanes(p, xs + [x], active[p.tasks[x] := p.lanes[x]])
  {
    forall y | y in xs + [x] ensures OnOwnLane(p, y, active[p.tasks[x] := p.lanes[x]]) {
      if y != x { assert OnOwnLane(p, y, active) && TasksDiffer(p, x, y); }
    }
  }

  lemma OwnLanesShrink(p: Plan, xs: seq<string>, active: map<string, string>, x: string)
    requires ValidPlan(p) && OnOwnLanes(p, [x] + xs, active) && x in p.tasks && x !in xs
    ensures OnOwnLanes(p, xs, active - {p.tasks[x]})
  {
    forall y | y in xs ensures OnOwnLane(p, y, active - {p.tasks[x]}) {
      assert y in [x] + xs && OnOwnLane(p, y, active) && TasksDiffer(p, x, y);
    }
  }

  /** Exactly the screens of `xs` are running, each with its tool call open. */
  ghost predicate InFlight(p: Plan, xs: seq<string>, s: Intervals) {
    && Planned(p, xs) && s.active.Keys == TaskSet(p, xs) && |s.active| == |xs|
    && OnOwnLanes(p, xs, s.active)
    && s.byAgent.Keys == LanesOf(p.lanes, xs)
    && s.open == TaskSet(p, xs)
    && s.peak <= LOGICAL_AGENT_LANES
  }

  lemma CheckTwo(s: Intervals, d: Draft, d': Draft)
    ensures CheckFrom(s, [d, d']) ==
      (var first := CheckOne(s, d); if first.Err? then first else CheckOne(first.value, d'))
  {
    assert [d, d'][..1] == [d] && [d][..0] == [];
    assert CheckFrom(s, [d, d'][..1]) == CheckOne(s, d);
  }

  /** A screen the checker has not seen, on a free lane. */
  ghost predicate Fresh(p: Plan, xs: seq<string>, s: Intervals, x: string) {
    && x in p.lanes && x in p.tasks && x !in xs && Planned(p, xs)
    && p.lanes[x] !in LanesOf(p.lanes, xs) && p.tasks[x] !in s.seen
  }

  lemma NewTask(p: Plan, xs: seq<string>, x: string)
    requires ValidPlan(p) && Planned(p, xs) && x in p.tasks && x !in xs
    ensures p.tasks[x] !in TaskSet(p, xs)
    ensures TaskSet(p, xs + [x]) == TaskSet(p, xs) + {p.tasks[x]} == TaskSet(p, [x] + xs)
    ensures LanesOf(p.lanes, xs + [x]) == LanesOf(p.lanes, xs) + {p.lanes[x]} == LanesOf(p.lanes, [x] + xs)
  {
    forall y | y in xs ensures p.tasks[y] != p.tasks[x] { assert TasksDiffer(p, x, y); }
  }

  lemma StartChecked(s: Intervals, id: string, lane: string)
    requires SCREEN_PREFIX <= id && lane != "" && id !in s.seen && id !in s.active && lane !in s.byAgent
    requires id !in s.open
    requires |s.active| < LOGICAL_AGENT_LANES && s.peak <= LOGICAL_AGENT_LANES
    ensures CheckFrom(s, [Draft(Some(lane), OnTask(id, Start)), Draft(Some(lane), OnTask(id, ToolStart))]) ==
      Ok(Intervals(s.active[id := lane], s.byAgent[lane := id], s.open + {id}, s.seen + {id},
                   Max(s.peak, |s.active| + 1)))
  {
    CheckTwo(s, Draft(Some(lane), OnTask(id, Start)), Draft(Some(lane), OnTask(id, ToolStart)));
    MapSize(s.active, id, lane);
  }

  lemma EndChecked(s: Intervals, id: string, lane: string, tool: Move, task: Move)
    requires SCREEN_PREFIX <= id && lane != "" && Holds(s, id, lane) && id in s.open && ToolEnds(tool) && TaskEnds(task)
    ensures CheckFrom(s, [Draft(Some(lane), OnTask(id, tool)), Draft(Some(lane), OnTask(id, task))]) ==
      Ok(Intervals(s.active - {id}, s.byAgent - {lane}, s.open - {id}, s.seen, s.peak))
  {
    CheckTwo(s, Draft(Some(lane), OnTask(id, tool)), Draft(Some(lane), OnTask(id, task)));
  }

  lemma FlightGrows(p: Plan, xs: seq<string>, s: Intervals, x: string, s': Intervals)
    requires ValidPlan(p) && InFlight(p, xs, s) && Fresh(p, xs, s, x) && s'.peak <= LOGICAL_AGENT_LANES
    requires s'.active == s.active[p.tasks[x] := p.lanes[x]] && s'.byAgent == s.byAgent[p.lanes[x] := p.tasks[x]]
    requires s'.open == s.open + {p.tasks[x]}
    ensures InFlight(p, xs + [x], s')
  {
    NewTask(p, xs, x);
    MapSize(s.active, p.tasks[x], p.lanes[x]);
    KeysGrow(s.active, p.tasks[x], p.lanes[x]);
    KeysGrow(s.byAgent, p.lanes[x], p.tasks[x]);
    OwnLanesGrow(p, xs, s.active, x);
  }

  lemma FlightShrinks(p: Plan, xs: seq<string>, s: Intervals, x: string, s': Intervals)
    requires ValidPlan(p) && Planned(p, [x]) && InFlight(p, [x] + xs, s)
    requires Planned(p, xs) && x !in xs && p.lanes[x] !in LanesOf(p.lanes, xs) && s'.peak == s.peak
    requires s'.active == s.active - {p.tasks[x]} && s'.byAgent == s.byAgent - {p.lanes[x]}
    requires s'.open == s.open - {p.tasks[x]}
    ensures InFlight(p, xs, s')
  {
    NewTask(p, xs, x);
    MapShrinks(s.active, p.tasks[x]);
    KeysShrink(s.active, p.tasks[x], TaskSet(p, xs));
    KeysShrink(s.byAgent, p.lanes[x], LanesOf(p.lanes, xs));
    OwnLanesShrink(p, xs, s.active, x);
  }

  lemma StartAccepted(p: Plan, xs: seq<string>, s: Intervals, x: string) returns (s': Intervals)
    requires ValidPlan(p) && InFlight(p, xs, s) && Fresh(p, xs, s, x) && |xs| < LOGICAL_AGENT_LANES
    ensures CheckFrom(s, ScreenStart(p, x)) == Ok(s')
    ensures InFlight(p, xs + [x], s') && s'.seen == s.seen + {p.tasks[x]} && s'.peak == Max(s.peak, |xs| + 1)
  {
    NewTask(p, xs, x);
    var id, lane := p.tasks[x], p.lanes[x];
    StartChecked(s, id, lane);
    s' := Intervals(s.active[id := lane], s.byAgent[lane := id], s.open + {id}, s.seen + {id},
                    Max(s.peak, |s.active| + 1));
    FlightGrows(p, xs, s, x, s');
  }

  lemma EndAccepted(p: Plan, xs: seq<string>, s: Intervals, x: string, a: Analysis) returns (s': Intervals)
    requires ValidPlan(p) && Planned(p, [x]) && InFlight(p, [x] + xs, s)
    requires Planned(p, xs) && x !in xs && p.lanes[x] !in LanesOf(p.lanes, xs)
    ensures CheckFrom(s, ScreenEnd(p, x, a)) == Ok(s')
    ensures InFlight(p, xs, s') && s'.seen == s.seen && s'.peak == s.peak
  {
    var id, lane := p.tasks[x], p.lanes[x];
    assert x in [x] + xs && id in TaskSet(p, [x] + xs) && OnOwnLane(p, x, s.active);
    match a {
      case Calculated(gaps, output) => EndChecked(s, id, lane, ToolDone, Finish(gaps.Some?, Some(output), gaps));
      case CalculationFailed(error) => EndChecked(s, id, lane, ToolFail(error), Fail(None, error));
    }
    s' := Intervals(s.active - {id}, s.byAgent - {lane}, s.open - {id}, s.seen, s.peak);
    FlightShrinks(p, xs, s, x, s');
  }

  lemma NextIsFresh(p: Plan, wave: seq<string>, n: nat, s: Intervals, s': Intervals)
    requires ValidPlan(p) && Planned(p, wave) && n < |wave| && Unique(wave) && LaneExclusive(p.lanes, wave)
    requires p.tasks[wave[n]] !in s.seen && s'.seen == s.seen + TaskSet(p, wave[..n])
    ensures Fresh(p, wave[..n], s', wave[n])
    ensures wave[..n + 1] == wave[..n] + [wave[n]]
  {
    WavePrefix(p.lanes, wave, n);
    UniquePrefix(wave, n);
    NewTask(p, wave[..n], wave[n]);
    assert wave[..n + 1] == wave[..n] + [wave[n]];
  }

  /** The checker after the first n starts of a wave that it was idle before. */
  ghost predicate Begun(p: Plan, wave: seq<string>, n: nat, s: Intervals, s': Intervals)
    requires Planned(p, wave) && n <= |wave|
  {
    CheckFrom(s, Starts(p, wave, n)) == Ok(s') && Launched(p, wave[..n], s, s')
  }

  ghost predicate Launched(p: Plan, xs: seq<string>, s: Intervals, s': Intervals)
    requires Planned(p, xs)
  {
    InFlight(p, xs, s') && s'.seen == s.seen + TaskSet(p, xs) && s'.peak == Max(s.peak, |xs|)
  }

  lemma LaunchOne(p: Plan, xs: seq<string>, s: Intervals, before: Intervals, x: string) returns (s': Intervals)
    requires ValidPlan(p) && Planned(p, xs) && Launched(p, xs, s, before) && Fresh(p, xs, before, x)
    requires |xs| < LOGICAL_AGENT_LANES
    ensures CheckFrom(before, ScreenStart(p, x)) == Ok(s') && Launched(p, xs + [x], s, s')
  {
    NewTask(p, xs, x);
    UnionStep(s.seen, TaskSet(p, xs), p.tasks[x]);
    s' := StartAccepted(p, xs, before, x);
  }

  lemma StartsCheck(p: Plan, wave: seq<string>, n: nat, s: Intervals, before: Intervals, s': Intervals)
    requires Planned(p, wave) && n < |wave| && CheckFrom(s, Starts(p, wave, n)) == Ok(before)
    requires CheckFrom(before, ScreenStart(p, wave[n])) == Ok(s')
    ensures CheckFrom(s, Starts(p, wave, n + 1)) == Ok(s')
  {
    CheckAppend(s, Starts(p, wave, n), ScreenStart(p, wave[n]));
  }

  ghost predicate Unseen(p: Plan, xs: seq<string>, s: Intervals) {
    forall i :: 0 <= i < |xs| ==> UnseenAt(p, xs[i], s)
  }

  predicate UnseenAt(p: Plan, x: string, s: Intervals) {
    x in p.tasks && p.tasks[x] !in s.seen
  }

  lemma NothingBegun(p: Plan, wave: seq<string>, s: Intervals)
    requires Planned(p, wave) && InFlight(p, [], s)
    ensures Begun(p, wave, 0, s, s)
  {
    assert wave[..0] == [];
  }

  lemma NextBegun(p: Plan, wave: seq<string>, n: nat, s: Intervals, before: Intervals) returns (s': Intervals)
    requires ValidPlan(p) && Planned(p, wave) && n < |wave| <= LOGICAL_AGENT_LANES && UnseenAt(p, wave[n], s)
    requires Unique(wave) && LaneExclusive(p.lanes, wave) && Begun(p, wave, n, s, before)
    ensures Begun(p, wave, n + 1, s, s')
  {
    NextIsFresh(p, wave, n, s, before);
    s' := LaunchOne(p, wave[..n], s, before, wave[n]);
    StartsCheck(p, wave, n, s, before, s');
  }

  lemma StartsAccepted(p: Plan, wave: seq<string>, s: Intervals) returns (s': Intervals)
    requires ValidPlan(p) && Planned(p, wave) && |wave| <= LOGICAL_AGENT_LANES && InFlight(p, [], s)
    requires Unique(wave) && LaneExclusive(p.lanes, wave) && Unseen(p, wave, s)
    ensures Begun(p, wave, |wave|, s, s')
  {
    s' := s;
    NothingBegun(p, wave, s);
    for n := 0 to |wave|
      invariant Begun(p, wave, n, s, s')
    {
      assert UnseenAt(p, wave[n], s);
      s' := NextBegun(p, wave, n, s, s');
    }
  }

  /** The checker after the first n ends of a wave that was wholly in flight. */
  ghost predicate Closing(p: Plan, wave: seq<string>, results: string -> Analysis, n: nat, s: Intervals, s': Intervals)
    requires Planned(p, wave) && n <= |wave|
  {
    && CheckFrom(s, Ends(p, wave, results, n)) == Ok(s')
    && InFlight(p, wave[n..], s') && s'.seen == s.seen && s'.peak == s.peak
  }

  lemma NextClosed(
      p: Plan, wave: seq<string>, results: string -> Analysis, n: nat, s: Intervals, before: Intervals)
    returns (s': Intervals)
    requires ValidPlan(p) && Planned(p, wave) && n < |wave| && LaneExclusive(p.lanes, wave) && Unique(wave)
    requires Closing(p, wave, results, n, s, before)
    ensures Closing(p, wave, results, n + 1, s, s')
  {
    DropNext(wave, n);
    WavePrefix(p.lanes, wave, n);
    s' := EndAccepted(p, wave[n + 1..], before, wave[n], results(wave[n]));
    EndsCheck(p, wave, results, n + 1, s, before, s');
  }

  lemma NothingClosed(p: Plan, wave: seq<string>, results: string -> Analysis, s: Intervals)
    requires Planned(p, wave) && InFlight(p, wave, s)
    ensures Closing(p, wave, results, 0, s, s)
  {
    assert wave[0..] == wave;
  }

  lemma EndsAccepted(p: Plan, wave: seq<string>, results: string -> Analysis, s: Intervals) returns (s': Intervals)
    requires ValidPlan(p) && Planned(p, wave) && InFlight(p, wave, s) && LaneExclusive(p.lanes, wave) && Unique(wave)
    ensures Closing(p, wave, results, |wave|, s, s')
  {
    s' := EndsClosed(p, wave, results, |wave|, s);
  }

  lemma {:induction false} EndsClosed(p: Plan, wave: seq<string>, results: string -> Analysis, n: nat, s: Intervals)
    returns (s': Intervals)
    requires ValidPlan(p) && Planned(p, wave) && InFlight(p, wave, s) && LaneExclusive(p.lanes, wave) && Unique(wave)
    requires n <= |wave|
    ensures Closing(p, wave, results, n, s, s')
  {
    if n == 0 {
      NothingClosed(p, wave, results, s);
      s' := s;
    } else {
      var before := EndsClosed(p, wave, results, n - 1, s);
      s' := NextClosed(p, wave, results, n - 1, s, before);
    }
  }

  lemma EndsCheck(
      p: Plan, wave: seq<string>, results: string -> Analysis, n: nat, s: Intervals, before: Intervals, s': Intervals)
    requires Planned(p, wave) && 0 < n <= |wave| && CheckFrom(s, Ends(p, wave, results, n - 1)) == Ok(before)
    requires CheckFrom(before, ScreenEnd(p, wave[n - 1], results(wave[n - 1]))) == Ok(s')
    ensures CheckFrom(s, Ends(p, wave, results, n)) == Ok(s')
  {
    CheckAppend(s, Ends(p, wave, results, n - 1), ScreenEnd(p, wave[n - 1], results(wave[n - 1])));
  }

  lemma WaveAccepted(p: Plan, wave: seq<string>, results: string -> Analysis, s: Intervals) returns (s': Intervals)
    requires ValidPlan(p) && Planned(p, wave) && |wave| <= LOGICAL_AGENT_LANES && InFlight(p, [], s)
    requires Unique(wave) && LaneExclusive(p.lanes, wave) && forall x :: x in wave ==> p.tasks[x] !in s.seen
    ensures CheckFrom(s, WaveEvents(p, wave, results)) == Ok(s')
    ensures InFlight(p, [], s') && s'.seen == s.seen + TaskSet(p, wave) && s'.peak == Max(s.peak, |wave|)
  {
    assert wave[..|wave|] == wave && wave[|wave|..] == [];
    var begun := StartsAccepted(p, wave, s);
    s' := EndsAccepted(p, wave, results, begun);
    CheckAppend(s, Starts(p, wave, |wave|), Ends(p, wave, results, |wave|));
  }

  function Largest(waves: seq<seq<string>>): nat {
    if waves == [] then 0 else Max(|waves[0]|, Largest(waves[1..]))
  }

  lemma {:induction false} ScreensAccepted(
      p: Plan, limit: nat, pending: seq<string>, results: string -> Analysis, s: Intervals)
    returns (s': Intervals)
    requires ValidPlan(p) && Planned(p, pending) && Unique(pending) && 0 < limit <= LOGICAL_AGENT_LANES
    requires InFlight(p, [], s) && forall x :: x in pending ==> p.tasks[x] !in s.seen
    ensures AllPlanned(p, Schedule(p.lanes, limit, pending))
    ensures CheckFrom(s, Screens(p, Schedule(p.lanes, limit, pending), results)) == Ok(s')
    ensures InFlight(p, [], s') && s'.peak == Max(s.peak, Largest(Schedule(p.lanes, limit, pending)))
    decreases |pending|
  {
    ScheduleIsPlanned(p, limit, pending);
    if pending == [] {
      s' := s;
    } else {
      var pass := Sweep(p.lanes, limit, pending);
      SweepSplits(p.lanes, limit, pending);
      SweepIsExclusive(p.lanes, limit, pending);
      var after := WaveAccepted(p, pass.wave, results, s);
      DeferredUnseen(p, pass.wave, pass.deferred, s, after);
      s' := ScreensAccepted(p, limit, pass.deferred, results, after);
      WaveThenRest(p, pass.wave, Schedule(p.lanes, limit, pass.deferred), results, s, after);
    }
  }

  lemma WaveThenRest(
      p: Plan, wave: seq<string>, rest: seq<seq<string>>, results: string -> Analysis, s: Intervals, after: Intervals)
    requires Planned(p, wave) && AllPlanned(p, rest) && AllPlanned(p, [wave] + rest)
    requires CheckFrom(s, WaveEvents(p, wave, results)) == Ok(after)
    ensures CheckFrom(s, Screens(p, [wave] + rest, results)) == CheckFrom(after, Screens(p, rest, results))
    ensures Largest([wave] + rest) == Max(|wave|, Largest(rest))
  {
    assert ([wave] + rest)[1..] == rest;
    CheckAppend(s, WaveEvents(p, wave, results), Screens(p, rest, results));
  }

  lemma DeferredUnseen(p: Plan, wave: seq<string>, deferred: seq<string>, s: Intervals, s': Intervals)
    requires ValidPlan(p) && Planned(p, wave) && Planned(p, deferred)
    requires forall x :: x in deferred ==> p.tasks[x] !in s.seen && x !in wave
    requires s'.seen == s.seen + TaskSet(p, wave)
    ensures forall x :: x in deferred ==> p.tasks[x] !in s'.seen
  {
    forall x, y | x in deferred && y in wave ensures p.tasks[x] != p.tasks[y] { assert TasksDiffer(p, x, y); }
  }

  lemma {:induction false} FailuresAccepted(p: Plan, failed: seq<string>, reason: string -> string)
    returns (s: Intervals)
    requires ValidPlan(p) && Planned(p, failed) && Unique(failed)
    ensures CheckFrom(NothingSeen(), FailureEvents(p, failed, reason)) == Ok(s)
    ensures InFlight(p, [], s) && s.seen == TaskSet(p, failed) && s.peak == if failed == [] then 0 else 1
  {
    if failed == [] {
      s := NothingSeen();
    } else {
      var front, x := failed[..|failed| - 1], failed[|failed| - 1];
      UniquePrefix(failed, |front|);
      assert failed == front + [x];
      var before := FailuresAccepted(p, front, reason);
      NewTask(p, front, x);
      s := FailureAccepted(p, before, x, reason(x));
      CheckAppend(NothingSeen(), FailureEvents(p, front, reason), CollectionFailure(p, x, reason(x)));
    }
  }

  lemma FailureAccepted(p: Plan, s: Intervals, x: string, error: string) returns (s': Intervals)
    requires ValidPlan(p) && x in p.lanes && x in p.tasks && InFlight(p, [], s) && p.tasks[x] !in s.seen
    ensures CheckFrom(s, CollectionFailure(p, x, error)) == Ok(s')
    ensures InFlight(p, [], s') && s'.seen == s.seen + {p.tasks[x]} && s'.peak == Max(s.peak, 1)
  {
    CheckTwo(s, Of(p, x, Start), Of(p, x, Fail(None, error)));
    assert s.active == map[];
    s' := CheckFrom(s, CollectionFailure(p, x, error)).value;
  }

  /** Completeness of the checker: however the tickers were batched, whatever failed to collect, whatever the
      calculations returned, and whatever other events stand between, the journal of a screen is accepted with the size
      of its largest wave as the peak, or one when only collection failures ran. */
  lemma EmissionsAreAccepted(
      p: Plan, batches: seq<Collection>, members: seq<string>, activeSlots: int,
      reason: string -> string, results: string -> Analysis, journal: seq<Draft>)
    requires ValidPlan(p) && Planned(p, RequestedIn(batches)) && Planned(p, members) && activeSlots >= 1
    requires Unique(RequestedIn(batches)) && Unique(members) && OwnIssuers(batches)
    requires ScreensOnly(journal) == Emission(p, batches, members, WaveLimit(activeSlots), reason, results)
    ensures var waves := Schedule(p.lanes, WaveLimit(activeSlots), Select(members, ReadyIn(batches), true));
      Verdict(journal) == Ok(Max(if FailedIn(batches) == [] then 0 else 1, Largest(waves)))
  {
    var requested, ready := RequestedIn(batches), ReadyIn(batches);
    var failed, pending, limit := FailedIn(batches), Select(members, ready, true), WaveLimit(activeSlots);
    BatchesAsOne(batches);
    SelectIsUnique(requested, ready, false);
    SelectIsUnique(members, ready, true);
    var begun := FailuresAccepted(p, failed, reason);
    DeferredUnseen(p, failed, pending, NothingSeen(), begun);
    var end := ScreensAccepted(p, limit, pending, results, begun);
    CheckAppend(NothingSeen(), FailureEvents(p, failed, reason),
                Screens(p, Schedule(p.lanes, limit, pending), results));
    OtherEventsDoNotMatter(NothingSeen(), journal);
    assert end.active == map[] && end.byAgent == map[];
  }

  // ---------- The plan of a manifest ----------

  function Digit(d: nat): char
    requires d < 10
  {
    ('0' as int + d) as char
  }

  function Decimal(n: nat): string {
    if n < 10 then [Digit(n)] else Decimal(n / 10) + [Digit(n % 10)]
  }

  function Zeros(k: nat): string {
    seq(k, _ => '0')
  }

  /** `{n:04d}` */
  function Padded(n: nat): string {
    if |Decimal(n)| < 4 then Zeros(4 - |Decimal(n)|) + Decimal(n) else Decimal(n)
  }

  function DecimalValue(s: string): int {
    if s == [] then 0 else DecimalValue(s[..|s| - 1]) * 10 + (s[|s| - 1] as int - '0' as int)
  }

  predicate AllDigits(s: string) {
    forall i :: 0 <= i < |s| ==> '0' <= s[i] <= '9'
  }

  lemma {:induction false} DecimalRoundTrip(n: nat)
    ensures DecimalValue(Decimal(n)) == n && AllDigits(Decimal(n))
  {
    if n >= 10 {
      DecimalRoundTrip(n / 10);
      assert Decimal(n)[..|Decimal(n)| - 1] == Decimal(n / 10);
    } else {
      assert Decimal(n)[..0] == [];
      assert DecimalValue(Decimal(n)[..0]) == 0;
    }
  }

  lemma {:induction false} LeadingZeros(k: nat, s: string)
    ensures DecimalValue(Zeros(k) + s) == DecimalValue(s)
  {
    if s != [] {
      LeadingZeros(k, s[..|s| - 1]);
      assert (Zeros(k) + s)[..k + |s| - 1] == Zeros(k) + s[..|s| - 1];
    } else if k > 0 {
      LeadingZeros(k - 1, s);
      assert (Zeros(k) + s)[..k - 1] == Zeros(k - 1) + s;
    } else {
      assert Zeros(k) + s == [];
    }
  }

  lemma PaddedRoundTrip(n: nat)
    ensures DecimalValue(Padded(n)) == n && AllDigits(Padded(n))
  {
    DecimalRoundTrip(n);
    if |Decimal(n)| < 4 { LeadingZeros(4 - |Decimal(n)|, Decimal(n)); }
  }

  function ScreenTaskId(index: nat, slug: string): string {
    SCREEN_PREFIX + Padded(index + 1) + "-" + slug
  }

  /** The task name tells the index, whatever the ticker's slug looks like. */
  lemma TaskIdsAreDistinct(i: nat, j: nat, slug: string, slug': string)
    requires ScreenTaskId(i, slug) == ScreenTaskId(j, slug')
    ensures i == j
  {
    PaddedRoundTrip(i + 1);
    PaddedRoundTrip(j + 1);
    Stripped(SCREEN_PREFIX, Padded(i + 1), Padded(j + 1), slug, slug');
    DigitsEndAtDash(Padded(i + 1), Padded(j + 1), slug, slug');
  }

  lemma Stripped(prefix: string, a: string, b: string, x: string, y: string)
    requires prefix + a + "-" + x == prefix + b + "-" + y
    ensures a + "-" + x == b + "-" + y
  {
    assert prefix + a + "-" + x == prefix + (a + "-" + x);
    assert prefix + b + "-" + y == prefix + (b + "-" + y);
    assert (prefix + (a + "-" + x))[|prefix|..] == a + "-" + x;
  }

  lemma DigitsEndAtDash(a: string, b: string, x: string, y: string)
    requires AllDigits(a) && AllDigits(b) && a + "-" + x == b + "-" + y
    ensures a == b
  {
    DashPosition(a, b, x, y);
    DashPosition(b, a, y, x);
    assert (a + "-" + x)[..|a|] == a && (b + "-" + y)[..|b|] == b;
  }

  lemma DashPosition(a: string, b: string, x: string, y: string)
    requires AllDigits(b) && a + "-" + x == b + "-" + y
    ensures |a| >= |b|
  {
    assert (a + "-" + x)[|a|] == '-';
    forall k | 0 <= k < |b| ensures (b + "-" + y)[k] != '-' { assert (b + "-" + y)[k] == b[k]; }
  }

  function LaneId(index: nat): string {
    "automatic-lane-0" + [Digit(index % LOGICAL_AGENT_LANES + 1)]
  }

  function ManifestLanes(members: seq<string>): Lanes {
    map x | x in members :: LaneId(Position(members, x))
  }

  function ManifestPlan(members: seq<string>, slug: string -> string): Plan {
    Plan(ManifestLanes(members),
         map x | x in members :: ScreenTaskId(Position(members, x), slug(x)))
  }

  /** The plan of any manifest meets what acceptance needs. */
  lemma ManifestPlansAreValid(members: seq<string>, slug: string -> string)
    ensures ValidPlan(ManifestPlan(members, slug)) && Planned(ManifestPlan(members, slug), members)
  {
    var p := ManifestPlan(members, slug);
    forall x, y ensures TasksDiffer(p, x, y) {
      if x in p.tasks && y in p.tasks && p.tasks[x] == p.tasks[y] {
        TaskIdsAreDistinct(Position(members, x), Position(members, y), slug(x), slug(y));
      }
    }
  }
}
