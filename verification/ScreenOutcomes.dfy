/** What the reducer makes of a screen's events: the verdict on every ticker is that of its collection and analysis. */
module ScreenOutcomes {
  import opened Common
  import opened Events
  import opened Reducer
  import opened Histories
  import opened Sorting
  import opened Waves
  import opened ScreenIntervals

  // ---------- The moves of a screen ----------

  /** How a screen's analysis ends its tool and its task. */
  function VerdictMoves(a: Analysis): seq<Move> {
    match a
    case Calculated(gaps, output) => [ToolDone, Finish(gaps.Some?, Some(output), gaps)]
    case CalculationFailed(error) => [ToolFail(error), Fail(None, error)]
  }

  function OpeningMoves(): seq<Move> {
    [Start, ToolStart]
  }

  function ScreenMoves(a: Analysis): seq<Move> {
    OpeningMoves() + VerdictMoves(a)
  }

  lemma TwoMoves(d: Draft, d': Draft, id: string)
    requires d.payload.OnTask? && d'.payload.OnTask? && d.payload.taskId == d'.payload.taskId
    ensures MovesOn([d, d'], id) == if d.payload.taskId == id then [d.payload.move, d'.payload.move] else []
  {
    assert [d, d'][..1] == [d] && [d][..0] == [];
    assert MovesOn([d], id) == if d.payload.taskId == id then [d.payload.move] else [];
  }

  lemma PairMoves(p: Plan, x: string, m: Move, m': Move, y: string)
    requires ValidPlan(p) && x in p.tasks && y in p.tasks
    ensures MovesOn([Of(p, x, m), Of(p, x, m')], p.tasks[y]) == if x == y then [m, m'] else []
  {
    TwoMoves(Of(p, x, m), Of(p, x, m'), p.tasks[y]);
    assert TasksDiffer(p, x, y);
  }

  /** Of the first n + 1 elements, y is the last or among those before, not both. */
  lemma NextTaken(s: seq<string>, n: nat, y: string)
    requires Unique(s) && n < |s|
    ensures y in s[..n + 1] <==> y == s[n] || y in s[..n]
    ensures y == s[n] ==> y !in s[..n]
  {
    TakeNext(s, n);
    UniquePrefix(s, n);
  }

  /** The events take the task through these moves, or leave it alone. */
  predicate Through(drafts: seq<Draft>, id: string, theirs: bool, moves: seq<Move>) {
    MovesOn(drafts, id) == if theirs then moves else []
  }

  lemma ThroughEither(a: seq<Draft>, b: seq<Draft>, id: string, before: bool, after: bool, moves: seq<Move>)
    requires Through(a, id, before, moves) && Through(b, id, after, moves) && !(before && after)
    ensures Through(a + b, id, before || after, moves)
  {
    MovesAppend(a, b, id);
  }

  lemma OneStart(p: Plan, x: string, y: string)
    requires ValidPlan(p) && x in p.tasks && y in p.tasks
    ensures Through(ScreenStart(p, x), p.tasks[y], y == x, OpeningMoves())
  {
    PairMoves(p, x, Start, ToolStart, y);
  }

  lemma NextStartMoves(p: Plan, wave: seq<string>, y: string, n: nat)
    requires ValidPlan(p) && Planned(p, wave) && Unique(wave) && y in p.tasks && n < |wave|
    requires Through(Starts(p, wave, n), p.tasks[y], y in wave[..n], OpeningMoves())
    ensures Through(Starts(p, wave, n + 1), p.tasks[y], y in wave[..n + 1], OpeningMoves())
  {
    var before, x := Starts(p, wave, n), wave[n];
    OneStart(p, x, y);
    NextTaken(wave, n, y);
    ThroughEither(before, ScreenStart(p, x), p.tasks[y], y in wave[..n], y == x, OpeningMoves());
  }

  lemma {:induction false} StartMoves(p: Plan, wave: seq<string>, y: string, n: nat)
    requires ValidPlan(p) && Planned(p, wave) && Unique(wave) && y in p.tasks && n <= |wave|
    ensures Through(Starts(p, wave, n), p.tasks[y], y in wave[..n], OpeningMoves())
  {
    if n > 0 {
      StartMoves(p, wave, y, n - 1);
      NextStartMoves(p, wave, y, n - 1);
    }
  }

  lemma EndMoves(p: Plan, x: string, a: Analysis, y: string)
    requires ValidPlan(p) && x in p.tasks && y in p.tasks
    ensures MovesOn(ScreenEnd(p, x, a), p.tasks[y]) == if x == y then VerdictMoves(a) else []
  {
    match a {
      case Calculated(gaps, output) => PairMoves(p, x, ToolDone, Finish(gaps.Some?, Some(output), gaps), y);
      case CalculationFailed(error) => PairMoves(p, x, ToolFail(error), Fail(None, error), y);
    }
  }

  lemma {:induction false} EndsMoves(p: Plan, wave: seq<string>, results: string -> Analysis, y: string, n: nat)
    requires ValidPlan(p) && Planned(p, wave) && Unique(wave) && y in p.tasks && n <= |wave|
    ensures Through(Ends(p, wave, results, n), p.tasks[y], y in wave[..n], VerdictMoves(results(y)))
  {
    if n > 0 {
      var id, moves, x := p.tasks[y], VerdictMoves(results(y)), wave[n - 1];
      EndsMoves(p, wave, results, y, n - 1);
      EndMoves(p, x, results(x), y);
      NextTaken(wave, n - 1, y);
      ThroughEither(Ends(p, wave, results, n - 1), ScreenEnd(p, x, results(x)), id, y in wave[..n - 1], y == x, moves);
    }
  }

  lemma WaveMoves(p: Plan, wave: seq<string>, results: string -> Analysis, y: string)
    requires ValidPlan(p) && Planned(p, wave) && Unique(wave) && y in p.tasks
    ensures Through(WaveEvents(p, wave, results), p.tasks[y], y in wave, ScreenMoves(results(y)))
  {
    StartMoves(p, wave, y, |wave|);
    EndsMoves(p, wave, results, y, |wave|);
    TakeAll(wave);
    MovesAppend(Starts(p, wave, |wave|), Ends(p, wave, results, |wave|), p.tasks[y]);
  }

  lemma {:induction false} ScreensMoves(p: Plan, waves: seq<seq<string>>, results: string -> Analysis, y: string)
    requires ValidPlan(p) && AllPlanned(p, waves) && Unique(Flatten(waves)) && y in p.tasks
    ensures Through(Screens(p, waves, results), p.tasks[y], y in Flatten(waves), ScreenMoves(results(y)))
  {
    if waves != [] {
      UniqueHalves(waves[0], Flatten(waves[1..]));
      WaveMoves(p, waves[0], results, y);
      ScreensMoves(p, waves[1..], results, y);
      ThroughEither(WaveEvents(p, waves[0], results), Screens(p, waves[1..], results), p.tasks[y], y in waves[0],
                    y in Flatten(waves[1..]), ScreenMoves(results(y)));
    }
  }

  lemma UniqueHalves<T>(a: seq<T>, b: seq<T>)
    requires Unique(a + b)
    ensures Unique(a) && Unique(b) && forall x :: x in a ==> x !in b
  {
    UniqueParts(a, b);
    forall i, j | 0 <= i < j < |b| ensures Differ(b, i, j) { assert Differ(a + b, |a| + i, |a| + j); }
  }

  lemma {:induction false} FailureMoves(p: Plan, failed: seq<string>, reason: string -> string, y: string)
    requires ValidPlan(p) && Planned(p, failed) && Unique(failed) && y in p.tasks
    ensures Through(FailureEvents(p, failed, reason), p.tasks[y], y in failed, [Start, Fail(None, reason(y))])
  {
    if failed != [] {
      var n := |failed| - 1;
      var x, moves := failed[n], [Start, Fail(None, reason(y))];
      NextTaken(failed, n, y);
      UniquePrefix(failed, n);
      TakeAll(failed);
      FailureMoves(p, failed[..n], reason, y);
      PairMoves(p, x, Start, Fail(None, reason(x)), y);
      ThroughEither(FailureEvents(p, failed[..n], reason), CollectionFailure(p, x, reason(x)), p.tasks[y],
                    y in failed[..n], y == x, moves);
    }
  }

  // ---------- The verdicts ----------

  /** Every ticker's task is planned on its lane, without dependencies, and has not begun. */
  ghost predicate ScreensQueued(p: Plan, xs: seq<string>, rs: RunState) {
    && !rs.status.Terminal() && rs.workflow.Some?
    && forall x :: x in xs ==> ScreenQueued(p, x, rs)
  }

  predicate ScreenQueued(p: Plan, x: string, rs: RunState) {
    && x in p.tasks && x in p.lanes && p.tasks[x] in rs.tasks
    && var t := rs.tasks[p.tasks[x]];
      t.status.Queued? && t.agent == p.lanes[x] && t.deps == [] && t.toolCalls == 0 && t.output.None?
  }

  /** The reducer's record of a screen after its analysis. */
  predicate Screened(t: TaskState, a: Analysis) {
    && t.toolCalls == 1
    && match a
       case Calculated(None, output) => t.status.Complete? && t.output == Some(output) && t.error == None
       case Calculated(Some(gaps), output) => t.status.Partial? && t.output == Some(output) && t.error == Some(gaps)
       case CalculationFailed(error) => t.status.Failed? && t.output == None && t.error == Some(error)
  }

  /** And after its collection failed. */
  predicate NotCollected(t: TaskState, error: string) {
    t.toolCalls == 0 && t.status.Failed? && t.output == None && t.error == Some(error)
  }

  lemma FourMoves(t: TaskState, a: Move, b: Move, c: Move, d: Move)
    ensures PlayMoves(t, [a, b] + [c, d]) == Moved(Moved(Moved(Moved(t, a), b), c), d)
    ensures LegalMoves(t, [a, b] + [c, d]) <==>
      && MoveAllowed(t.status, a) && MoveAllowed(Moved(t, a).status, b) && MoveAllowed(Moved(Moved(t, a), b).status, c)
      && MoveAllowed(Moved(Moved(Moved(t, a), b), c).status, d)
  {
    assert [a, b] + [c, d] == (([] + [a]) + [b] + [c]) + [d];
    OneMoreMove(t, [], a);
    OneMoreMove(t, [] + [a], b);
    OneMoreMove(t, [] + [a] + [b], c);
    OneMoreMove(t, [] + [a] + [b] + [c], d);
  }

  lemma ScreenPlays(t: TaskState, a: Analysis)
    requires t.status.Queued? && t.toolCalls == 0 && t.output.None?
    ensures LegalMoves(t, ScreenMoves(a)) && Screened(PlayMoves(t, ScreenMoves(a)), a)
  {
    var end := VerdictMoves(a);
    assert end == [end[0], end[1]];
    FourMoves(t, Start, ToolStart, end[0], end[1]);
  }

  lemma FailurePlays(t: TaskState, error: string)
    requires t.status.Queued? && t.toolCalls == 0 && t.output.None?
    ensures LegalMoves(t, [Start, Fail(None, error)]) && NotCollected(PlayMoves(t, [Start, Fail(None, error)]), error)
  {
    assert [Start, Fail(None, error)] == ([] + [Start]) + [Fail(None, error)];
    OneMoreMove(t, [], Start);
    OneMoreMove(t, [] + [Start], Fail(None, error));
  }

  lemma NoMoves(t: TaskState)
    ensures LegalMoves(t, []) && PlayMoves(t, []) == t
  {
  }

  // ---------- Whose events they are ----------

  /** The event is one of the listed tickers' screens. */
  ghost predicate OfListed(p: Plan, xs: seq<string>, d: Draft) {
    exists x :: x in xs && x in p.tasks && x in p.lanes && d.payload.OnTask? && d == Of(p, x, d.payload.move)
  }

  ghost predicate AllListed(p: Plan, xs: seq<string>, drafts: seq<Draft>) {
    forall i {:trigger drafts[i]} :: 0 <= i < |drafts| ==> OfListed(p, xs, drafts[i])
  }

  lemma ListedAppend(p: Plan, xs: seq<string>, a: seq<Draft>, b: seq<Draft>)
    requires AllListed(p, xs, a) && AllListed(p, xs, b)
    ensures AllListed(p, xs, a + b)
  {
  }

  lemma PairListed(p: Plan, xs: seq<string>, x: string, m: Move, m': Move)
    requires x in xs && x in p.tasks && x in p.lanes
    ensures AllListed(p, xs, [Of(p, x, m), Of(p, x, m')])
  {
    assert OfListed(p, xs, Of(p, x, m)) && OfListed(p, xs, Of(p, x, m'));
  }

  lemma WaveListed(p: Plan, xs: seq<string>, wave: seq<string>, results: string -> Analysis)
    requires Planned(p, wave) && forall x :: x in wave ==> x in xs
    ensures AllListed(p, xs, WaveEvents(p, wave, results))
  {
    for n := 0 to |wave|
      invariant AllListed(p, xs, Starts(p, wave, n))
    {
      PairListed(p, xs, wave[n], Start, ToolStart);
      ListedAppend(p, xs, Starts(p, wave, n), ScreenStart(p, wave[n]));
    }
    for n := 0 to |wave|
      invariant AllListed(p, xs, Ends(p, wave, results, n))
    {
      EndListed(p, xs, wave[n], results(wave[n]));
      ListedAppend(p, xs, Ends(p, wave, results, n), ScreenEnd(p, wave[n], results(wave[n])));
    }
    ListedAppend(p, xs, Starts(p, wave, |wave|), Ends(p, wave, results, |wave|));
  }

  lemma EndListed(p: Plan, xs: seq<string>, x: string, a: Analysis)
    requires x in xs && x in p.tasks && x in p.lanes
    ensures AllListed(p, xs, ScreenEnd(p, x, a))
  {
    match a {
      case Calculated(gaps, output) => PairListed(p, xs, x, ToolDone, Finish(gaps.Some?, Some(output), gaps));
      case CalculationFailed(error) => PairListed(p, xs, x, ToolFail(error), Fail(None, error));
    }
  }

  lemma {:induction false} ScreensListed(
      p: Plan, xs: seq<string>, waves: seq<seq<string>>, results: string -> Analysis)
    requires AllPlanned(p, waves) && forall x :: x in Flatten(waves) ==> x in xs
    ensures AllListed(p, xs, Screens(p, waves, results))
  {
    if waves != [] {
      WaveListed(p, xs, waves[0], results);
      ScreensListed(p, xs, waves[1..], results);
      ListedAppend(p, xs, WaveEvents(p, waves[0], results), Screens(p, waves[1..], results));
    }
  }

  lemma {:induction false} FailuresListed(p: Plan, xs: seq<string>, failed: seq<string>, reason: string -> string)
    requires Planned(p, failed) && forall x :: x in failed ==> x in xs
    ensures AllListed(p, xs, FailureEvents(p, failed, reason))
  {
    if failed != [] {
      var n := |failed| - 1;
      FailuresListed(p, xs, failed[..n], reason);
      PairListed(p, xs, failed[n], Start, Fail(None, reason(failed[n])));
      ListedAppend(p, xs, FailureEvents(p, failed[..n], reason), CollectionFailure(p, failed[n], reason(failed[n])));
    }
  }

  // ---------- The whole screen ----------

  ghost predicate Screenable(p: Plan, batches: seq<Collection>, members: seq<string>, limit: nat) {
    && ValidPlan(p) && Planned(p, RequestedIn(batches)) && Planned(p, members) && limit > 0
    && Unique(RequestedIn(batches)) && Unique(members) && OwnIssuers(batches)
  }

  /** What each ticker's task goes through. */
  lemma EmissionMoves(
      p: Plan, batches: seq<Collection>, members: seq<string>, limit: nat, reason: string -> string,
      results: string -> Analysis, y: string)
    requires Screenable(p, batches, members, limit) && y in p.tasks
    ensures MovesOn(Emission(p, batches, members, limit, reason, results), p.tasks[y]) ==
      if y in RequestedIn(batches) && y !in ReadyIn(batches) then [Start, Fail(None, reason(y))]
      else if y in members && y in ReadyIn(batches) then ScreenMoves(results(y)) else []
  {
    var failed, ready := FailedIn(batches), Select(members, ReadyIn(batches), true);
    var waves := Schedule(p.lanes, limit, ready);
    FailedAreRequested(batches);
    BatchesAsOne(batches);
    SelectIsUnique(RequestedIn(batches), ReadyIn(batches), false);
    FailureMoves(p, failed, reason, y);
    ScheduleIsPlanned(p, limit, ready);
    WavesHoldReady(p, limit, ready);
    SelectIsUnique(members, ReadyIn(batches), true);
    SameElementsUnique(Flatten(waves), ready);
    ScreensMoves(p, waves, results, y);
    MovesAppend(FailureEvents(p, failed, reason), Screens(p, waves, results), p.tasks[y]);
  }

  lemma WavesHoldReady(p: Plan, limit: nat, ready: seq<string>)
    requires Planned(p, ready) && limit > 0
    ensures multiset(Flatten(Schedule(p.lanes, limit, ready))) == multiset(ready)
    ensures forall x :: x in Flatten(Schedule(p.lanes, limit, ready)) <==> x in ready
  {
    ScheduleIsSound(p.lanes, limit, ready);
    SameMembers(Flatten(Schedule(p.lanes, limit, ready)), ready);
  }

  lemma SameElementsUnique(a: seq<string>, b: seq<string>)
    requires multiset(a) == multiset(b) && Unique(b)
    ensures Unique(a)
  {
    forall x ensures multiset(a)[x] <= 1 { UniqueCount(b, x); }
    CountedUnique(a);
  }

  lemma EmissionListed(
      p: Plan, batches: seq<Collection>, members: seq<string>, limit: nat, reason: string -> string,
      results: string -> Analysis)
    requires Screenable(p, batches, members, limit)
    ensures AllListed(p, RequestedIn(batches) + members, Emission(p, batches, members, limit, reason, results))
  {
    var xs, ready := RequestedIn(batches) + members, Select(members, ReadyIn(batches), true);
    FailedAreRequested(batches);
    FailuresListed(p, xs, FailedIn(batches), reason);
    ScheduleIsPlanned(p, limit, ready);
    WavesHoldReady(p, limit, ready);
    ScreensListed(p, xs, Schedule(p.lanes, limit, ready), results);
    ListedAppend(p, xs, FailureEvents(p, FailedIn(batches), reason),
                 Screens(p, Schedule(p.lanes, limit, ready), results));
  }

  lemma {:induction false} UnlistedDoNotMove(p: Plan, xs: seq<string>, drafts: seq<Draft>, id: string)
    requires AllListed(p, xs, drafts) && forall x :: x in xs && x in p.tasks ==> p.tasks[x] != id
    ensures MovesOn(drafts, id) == []
  {
    if drafts != [] {
      assert OfListed(p, xs, drafts[|drafts| - 1]);
      UnlistedDoNotMove(p, xs, drafts[..|drafts| - 1], id);
    }
  }

  lemma EmissionIsLegal(
      p: Plan, batches: seq<Collection>, members: seq<string>, limit: nat, reason: string -> string,
      results: string -> Analysis, rs: RunState)
    requires Screenable(p, batches, members, limit)
    requires ScreensQueued(p, RequestedIn(batches) + members, rs)
    ensures AllOfFreeTasks(rs, Emission(p, batches, members, limit, reason, results))
    ensures AllLegal(rs, Emission(p, batches, members, limit, reason, results))
  {
    var xs, drafts := RequestedIn(batches) + members, Emission(p, batches, members, limit, reason, results);
    EmissionListed(p, batches, members, limit, reason, results);
    forall i | 0 <= i < |drafts| ensures OfFreeTask(rs, drafts[i]) {
      assert OfListed(p, xs, drafts[i]);
      var x :| x in xs && x in p.tasks && x in p.lanes && drafts[i] == Of(p, x, drafts[i].payload.move);
      assert ScreenQueued(p, x, rs);
    }
    forall id | id in rs.tasks ensures LegalMoves(rs.tasks[id], MovesOn(drafts, id)) {
      if x :| x in xs && x in p.tasks && p.tasks[x] == id {
        assert ScreenQueued(p, x, rs);
        EmissionMoves(p, batches, members, limit, reason, results, x);
        ScreenPlays(rs.tasks[id], results(x));
        FailurePlays(rs.tasks[id], reason(x));
      } else {
        UnlistedDoNotMove(p, xs, drafts, id);
      }
    }
  }

  /** The end of a screen, task by task. */
  ghost predicate EndsAsAnalysed(
      p: Plan, batches: seq<Collection>, members: seq<string>, reason: string -> string, results: string -> Analysis,
      rs: RunState)
  {
    && (forall x :: x in members && x in ReadyIn(batches) ==>
        x in p.tasks && p.tasks[x] in rs.tasks && Screened(rs.tasks[p.tasks[x]], results(x)))
    && (forall x :: x in RequestedIn(batches) && x !in ReadyIn(batches) ==>
        x in p.tasks && p.tasks[x] in rs.tasks && NotCollected(rs.tasks[p.tasks[x]], reason(x)))
  }

  lemma {:induction false} OnlyScreensMoveScreens(events: seq<Draft>, id: string)
    requires SCREEN_PREFIX <= id
    ensures MovesOn(events, id) == MovesOn(ScreensOnly(events), id)
  {
    if events != [] {
      var n := |events| - 1;
      OnlyScreensMoveScreens(events[..n], id);
      MovesAppend(ScreensOnly(events[..n]), if OfScreen(events[n]) then [events[n]] else [], id);
      if OfScreen(events[n]) { assert [events[n]][..0] == []; }
    }
  }

  /** In every accepted journal whose screen events are those the runtime emits, whatever stands between them, each
      screen ends as its analysis says, and each ticker without evidence as its collection says. */
  lemma JournalsEndAsAnalysed(
      p: Plan, batches: seq<Collection>, members: seq<string>, limit: nat, reason: string -> string,
      results: string -> Analysis, rs: RunState, journal: seq<Draft>)
    requires Screenable(p, batches, members, limit)
    requires ScreensQueued(p, RequestedIn(batches) + members, rs)
    requires ScreensOnly(journal) == Emission(p, batches, members, limit, reason, results)
    requires PublishAll(rs, journal).Ok?
    ensures EndsAsAnalysed(p, batches, members, reason, results, PublishAll(rs, journal).value)
  {
    forall x | x in RequestedIn(batches) + members
      ensures p.tasks[x] in PublishAll(rs, journal).value.tasks
      ensures var t := PublishAll(rs, journal).value.tasks[p.tasks[x]];
        if x in RequestedIn(batches) && x !in ReadyIn(batches) then NotCollected(t, reason(x))
        else x in members && x in ReadyIn(batches) ==> Screened(t, results(x))
    {
      assert ScreenQueued(p, x, rs);
      TasksFollowTheirMoves(rs, journal, p.tasks[x]);
      OnlyScreensMoveScreens(journal, p.tasks[x]);
      EmissionMoves(p, batches, members, limit, reason, results, x);
      ScreenPlays(rs.tasks[p.tasks[x]], results(x));
      FailurePlays(rs.tasks[p.tasks[x]], reason(x));
    }
  }

  /** A screen's own events are accepted from a planned workflow, end each task so, and touch no other. */
  lemma ScreensEndAsAnalysed(
      p: Plan, batches: seq<Collection>, members: seq<string>, limit: nat, reason: string -> string,
      results: string -> Analysis, rs: RunState)
    returns (rs': RunState)
    requires Screenable(p, batches, members, limit)
    requires ScreensQueued(p, RequestedIn(batches) + members, rs)
    ensures PublishAll(rs, Emission(p, batches, members, limit, reason, results)) == Ok(rs')
    ensures EndsAsAnalysed(p, batches, members, reason, results, rs')
    ensures forall id :: id in rs.tasks && (forall x :: x in RequestedIn(batches) + members ==> p.tasks[x] != id) ==>
      id in rs'.tasks && rs'.tasks[id] == rs.tasks[id]
  {
    var xs, drafts := RequestedIn(batches) + members, Emission(p, batches, members, limit, reason, results);
    EmissionIsLegal(p, batches, members, limit, reason, results, rs);
    FreeTasksAccepted(rs, drafts);
    rs' := PublishAll(rs, drafts).value;
    EmissionListed(p, batches, members, limit, reason, results);
    AllOfScreens(p, xs, drafts);
    JournalsEndAsAnalysed(p, batches, members, limit, reason, results, rs, drafts);
    forall id | id in rs.tasks && (forall x :: x in xs ==> p.tasks[x] != id)
      ensures id in rs'.tasks && rs'.tasks[id] == rs.tasks[id]
    {
      UnlistedDoNotMove(p, xs, drafts, id);
      TasksFollowTheirMoves(rs, drafts, id);
    }
  }

  lemma {:induction false} AllOfScreens(p: Plan, xs: seq<string>, drafts: seq<Draft>)
    requires ValidPlan(p) && AllListed(p, xs, drafts)
    ensures ScreensOnly(drafts) == drafts
  {
    if drafts != [] {
      assert OfListed(p, xs, drafts[|drafts| - 1]);
      AllOfScreens(p, xs, drafts[..|drafts| - 1]);
      LastTaken(drafts);
    }
  }
}
