/** The lane-exclusive wave scheduler of the automatic screen (`_analysis_waves` in automatic_runtime.py). */
module Waves {
  import opened Common

  const LOGICAL_AGENT_LANES := 8

  /** `lane_by_ticker` */
  type Lanes = map<string, string>

  predicate Assigned(lanes: Lanes, issuers: seq<string>) {
    forall x :: x in issuers ==> x in lanes
  }

  function LanesOf(lanes: Lanes, issuers: seq<string>): set<string>
    requires Assigned(lanes, issuers)
  {
    set x | x in issuers :: lanes[x]
  }

  // ---------- One pass over the pending issuers ----------

  datatype Pass = Pass(wave: seq<string>, deferred: seq<string>)

  function Sweep(lanes: Lanes, limit: nat, pending: seq<string>): (p: Pass)
    requires Assigned(lanes, pending)
    ensures |p.wave| + |p.deferred| == |pending| && |p.wave| <= limit
    ensures Assigned(lanes, p.wave) && Assigned(lanes, p.deferred)
    ensures pending != [] && limit > 0 ==> p.wave != []
  {
    if pending == [] then Pass([], [])
    else
      var n := |pending| - 1;
      var p := Sweep(lanes, limit, pending[..n]);
      if |p.wave| < limit && lanes[pending[n]] !in LanesOf(lanes, p.wave) then Pass(p.wave + [pending[n]], p.deferred)
      else Pass(p.wave, p.deferred + [pending[n]])
  }

  function Schedule(lanes: Lanes, limit: nat, pending: seq<string>): seq<seq<string>>
    requires Assigned(lanes, pending) && limit > 0
    decreases |pending|
  {
    if pending == [] then []
    else
      var p := Sweep(lanes, limit, pending);
      [p.wave] + Schedule(lanes, limit, p.deferred)
  }

  datatype WaveError = SlotsNotPositive | NoProgress

  function WaveLimit(activeSlots: int): int {
    if activeSlots < LOGICAL_AGENT_LANES then activeSlots else LOGICAL_AGENT_LANES
  }

  /** `for issuer in pending`: who is admitted to the next wave, and who is deferred. */
  method NextWave(lanes: Lanes, limit: nat, pending: seq<string>) returns (wave: seq<string>, deferred: seq<string>)
    requires Assigned(lanes, pending)
    ensures Sweep(lanes, limit, pending) == Pass(wave, deferred)
  {
    wave, deferred := [], [];
    var usedLanes: set<string> := {};
    for i := 0 to |pending|
      invariant Sweep(lanes, limit, pending[..i]) == Pass(wave, deferred)
      invariant usedLanes == LanesOf(lanes, wave)
    {
      assert pending[..i + 1][..i] == pending[..i];
      var lane := lanes[pending[i]];
      if |wave| < limit && lane !in usedLanes {
        wave, usedLanes := wave + [pending[i]], usedLanes + {lane};
      } else {
        deferred := deferred + [pending[i]];
      }
    }
    assert pending[..|pending|] == pending;
  }

  lemma NextInSchedule(lanes: Lanes, limit: nat, pending: seq<string>, waves: seq<seq<string>>)
    requires Assigned(lanes, pending) && limit > 0 && pending != []
    ensures var p := Sweep(lanes, limit, pending);
      waves + Schedule(lanes, limit, pending) == (waves + [p.wave]) + Schedule(lanes, limit, p.deferred)
  {
    var p := Sweep(lanes, limit, pending);
    Reassociated(waves, [p.wave], Schedule(lanes, limit, p.deferred));
  }

  /** The scheduler fails only for want of slots: the "could not make progress" branch is dead. */
  method AnalysisWaves(issuers: seq<string>, activeSlots: int, lanes: Lanes)
    returns (r: Result<seq<seq<string>>, WaveError>)
    requires Assigned(lanes, issuers)
    ensures activeSlots < 1 ==> r == Err(SlotsNotPositive)
    ensures activeSlots >= 1 ==> r == Ok(Schedule(lanes, WaveLimit(activeSlots), issuers))
  {
    var limit := WaveLimit(activeSlots);
    if limit < 1 { return Err(SlotsNotPositive); }
    var pending := issuers;
    var waves: seq<seq<string>> := [];
    while pending != []
      invariant Assigned(lanes, pending)
      invariant waves + Schedule(lanes, limit, pending) == Schedule(lanes, limit, issuers)
      decreases |pending|
    {
      var wave, deferred := NextWave(lanes, limit, pending);
      if wave == [] { return Err(NoProgress); }
      NextInSchedule(lanes, limit, pending, waves);
      waves, pending := waves + [wave], deferred;
    }
    assert waves + [] == waves;
    return Ok(waves);
  }

  // ---------- What a schedule is ----------

  function Flatten(waves: seq<seq<string>>): seq<string> {
    if waves == [] then [] else waves[0] + Flatten(waves[1..])
  }

  predicate LaneExclusive(lanes: Lanes, wave: seq<string>) {
    Assigned(lanes, wave) && forall i, j :: 0 <= i < j < |wave| ==> SeparateLanes(lanes, wave, i, j)
  }

  predicate SeparateLanes(lanes: Lanes, wave: seq<string>, i: int, j: int)
    requires 0 <= i < |wave| && 0 <= j < |wave| && Assigned(lanes, wave)
  {
    lanes[wave[i]] != lanes[wave[j]]
  }

  /** No wave is larger than the limit or uses a lane twice. */
  predicate Admissible(lanes: Lanes, limit: nat, waves: seq<seq<string>>) {
    forall i :: 0 <= i < |waves| ==> |waves[i]| <= limit && LaneExclusive(lanes, waves[i])
  }

  /** The issuers of one lane, in order. */
  function OfLane(lanes: Lanes, lane: string, issuers: seq<string>): seq<string>
    requires Assigned(lanes, issuers)
  {
    if issuers == [] then []
    else
      var n := |issuers| - 1;
      OfLane(lanes, lane, issuers[..n]) + (if lanes[issuers[n]] == lane then [issuers[n]] else [])
  }

  function Load(lanes: Lanes, lane: string, issuers: seq<string>): nat
    requires Assigned(lanes, issuers)
  {
    |OfLane(lanes, lane, issuers)|
  }

  lemma {:induction false} OfLaneAppend(lanes: Lanes, lane: string, a: seq<string>, b: seq<string>)
    requires Assigned(lanes, a) && Assigned(lanes, b)
    ensures OfLane(lanes, lane, a + b) == OfLane(lanes, lane, a) + OfLane(lanes, lane, b)
  {
    if b == [] {
      assert a + b == a;
    } else {
      var n := |b| - 1;
      OfLaneAppend(lanes, lane, a, b[..n]);
      FrontOfSum(a, b);
      Reassociated(OfLane(lanes, lane, a), OfLane(lanes, lane, b[..n]), if lanes[b[n]] == lane then [b[n]] else []);
    }
  }

  // ---------- A pass ----------

  lemma SweepStep(lanes: Lanes, limit: nat, pending: seq<string>, x: string)
    requires Assigned(lanes, pending) && x in lanes
    ensures var p := Sweep(lanes, limit, pending);
      Sweep(lanes, limit, pending + [x]) ==
        if |p.wave| < limit && lanes[x] !in LanesOf(lanes, p.wave) then Pass(p.wave + [x], p.deferred)
        else Pass(p.wave, p.deferred + [x])
  {
    assert (pending + [x])[..|pending|] == pending;
  }

  lemma ExclusiveAppend(lanes: Lanes, wave: seq<string>, x: string)
    requires LaneExclusive(lanes, wave) && x in lanes && lanes[x] !in LanesOf(lanes, wave)
    ensures LaneExclusive(lanes, wave + [x])
  {
    forall i, j | 0 <= i < j < |wave| + 1 ensures SeparateLanes(lanes, wave + [x], i, j) {
      if j < |wave| { assert SeparateLanes(lanes, wave, i, j); } else { assert lanes[wave[i]] in LanesOf(lanes, wave); }
    }
  }

  lemma {:induction false} SweepKeepsAll(lanes: Lanes, limit: nat, pending: seq<string>)
    requires Assigned(lanes, pending)
    ensures var p := Sweep(lanes, limit, pending); multiset(p.wave) + multiset(p.deferred) == multiset(pending)
  {
    if pending != [] {
      var front, x := pending[..|pending| - 1], pending[|pending| - 1];
      SweepKeepsAll(lanes, limit, front);
      LastTaken(pending);
      SweepStep(lanes, limit, front, x);
      var p := Sweep(lanes, limit, front);
      CountOne(front, x);
      CountOne(p.wave, x);
      CountOne(p.deferred, x);
    }
  }

  lemma CountOne(s: seq<string>, x: string)
    ensures multiset(s + [x]) == multiset(s) + multiset{x}
  {
  }

  lemma {:induction false} WaveIsExclusive(lanes: Lanes, limit: nat, pending: seq<string>)
    requires Assigned(lanes, pending)
    ensures LaneExclusive(lanes, Sweep(lanes, limit, pending).wave)
  {
    if pending != [] {
      var front, x := pending[..|pending| - 1], pending[|pending| - 1];
      WaveIsExclusive(lanes, limit, front);
      var p := Sweep(lanes, limit, front);
      if |p.wave| < limit && lanes[x] !in LanesOf(lanes, p.wave) { ExclusiveAppend(lanes, p.wave, x); }
    }
  }

  lemma SweepIsExclusive(lanes: Lanes, limit: nat, pending: seq<string>)
    requires Assigned(lanes, pending)
    ensures LaneExclusive(lanes, Sweep(lanes, limit, pending).wave)
    ensures multiset(Sweep(lanes, limit, pending).wave) + multiset(Sweep(lanes, limit, pending).deferred) ==
      multiset(pending)
  {
    WaveIsExclusive(lanes, limit, pending);
    SweepKeepsAll(lanes, limit, pending);
  }

  /** Distinct issuers stay distinct, and nobody is both admitted and deferred. */
  lemma {:induction false} SweepSplits(lanes: Lanes, limit: nat, pending: seq<string>)
    requires Assigned(lanes, pending) && Unique(pending)
    ensures var p := Sweep(lanes, limit, pending);
      && Unique(p.wave) && Unique(p.deferred)
      && (forall x :: x in pending <==> x in p.wave || x in p.deferred)
      && (forall x :: x in p.wave ==> x !in p.deferred)
  {
    if pending != [] {
      var front, x := pending[..|pending| - 1], pending[|pending| - 1];
      UniquePrefix(pending, |front|);
      assert pending == front + [x];
      SweepSplits(lanes, limit, front);
      var p := Sweep(lanes, limit, front);
      UniqueAppend(p.wave, x);
      UniqueAppend(p.deferred, x);
    }
  }

  lemma OfLaneStep(lanes: Lanes, lane: string, a: seq<string>, x: string)
    requires Assigned(lanes, a) && x in lanes
    ensures OfLane(lanes, lane, a + [x]) == OfLane(lanes, lane, a) + (if lanes[x] == lane then [x] else [])
  {
    assert (a + [x])[..|a|] == a;
  }

  lemma {:induction false} LaneHasWork(lanes: Lanes, lane: string, issuers: seq<string>)
    requires Assigned(lanes, issuers)
    ensures lane in LanesOf(lanes, issuers) <==> OfLane(lanes, lane, issuers) != []
  {
    if issuers != [] {
      var n := |issuers| - 1;
      LaneHasWork(lanes, lane, issuers[..n]);
      assert issuers == issuers[..n] + [issuers[n]];
      assert LanesOf(lanes, issuers) == LanesOf(lanes, issuers[..n]) + {lanes[issuers[n]]};
    }
  }

  predicate TailExclusive(lanes: Lanes, limit: nat, lane: string, p: Pass)
    requires Assigned(lanes, p.wave) && Assigned(lanes, p.deferred)
  {
    OfLane(lanes, lane, p.deferred) != [] ==> lane in LanesOf(lanes, p.wave) || |p.wave| == limit
  }

  lemma TailAfterAdmission(lanes: Lanes, limit: nat, lane: string, p: Pass, x: string)
    requires Assigned(lanes, p.wave) && Assigned(lanes, p.deferred) && x in lanes && |p.wave| < limit
    requires TailExclusive(lanes, limit, lane, p)
    ensures TailExclusive(lanes, limit, lane, Pass(p.wave + [x], p.deferred))
  {
    assert LanesOf(lanes, p.wave) <= LanesOf(lanes, p.wave + [x]);
  }

  /** What is deferred of a lane comes after what is admitted of it. */
  lemma {:induction false} ExclusiveTail(lanes: Lanes, limit: nat, pending: seq<string>, lane: string)
    requires Assigned(lanes, pending)
    ensures TailExclusive(lanes, limit, lane, Sweep(lanes, limit, pending))
  {
    if pending != [] {
      var front, x := pending[..|pending| - 1], pending[|pending| - 1];
      assert pending == front + [x];
      ExclusiveTail(lanes, limit, front, lane);
      SweepStep(lanes, limit, front, x);
      var p := Sweep(lanes, limit, front);
      if |p.wave| < limit && lanes[x] !in LanesOf(lanes, p.wave) {
        TailAfterAdmission(lanes, limit, lane, p, x);
      } else {
        OfLaneStep(lanes, lane, p.deferred, x);
      }
    }
  }

  lemma JoinedLast<T>(f: seq<T>, w: seq<T>, d: seq<T>, one: seq<T>)
    requires f == w + d
    ensures one == [] || d == [] ==> f + one == (w + one) + d
    ensures f + one == w + (d + one)
  {
    assert (w + d) + one == w + (d + one);
    if d == [] { assert w + d == w && (w + one) + d == w + one; }
    if one == [] { assert f + one == f && w + one == w; }
  }

  lemma OrderAfterAdmission(lanes: Lanes, lane: string, front: seq<string>, p: Pass, x: string)
    requires Assigned(lanes, front) && Assigned(lanes, p.wave) && Assigned(lanes, p.deferred) && x in lanes
    requires OfLane(lanes, lane, front) == OfLane(lanes, lane, p.wave) + OfLane(lanes, lane, p.deferred)
    requires lanes[x] == lane ==> OfLane(lanes, lane, p.deferred) == []
    ensures OfLane(lanes, lane, front + [x]) == OfLane(lanes, lane, p.wave + [x]) + OfLane(lanes, lane, p.deferred)
  {
    OfLaneStep(lanes, lane, front, x);
    OfLaneStep(lanes, lane, p.wave, x);
    JoinedLast(OfLane(lanes, lane, front), OfLane(lanes, lane, p.wave), OfLane(lanes, lane, p.deferred),
               if lanes[x] == lane then [x] else []);
  }

  lemma OrderAfterDeferral(lanes: Lanes, lane: string, front: seq<string>, p: Pass, x: string)
    requires Assigned(lanes, front) && Assigned(lanes, p.wave) && Assigned(lanes, p.deferred) && x in lanes
    requires OfLane(lanes, lane, front) == OfLane(lanes, lane, p.wave) + OfLane(lanes, lane, p.deferred)
    ensures OfLane(lanes, lane, front + [x]) == OfLane(lanes, lane, p.wave) + OfLane(lanes, lane, p.deferred + [x])
  {
    OfLaneStep(lanes, lane, front, x);
    OfLaneStep(lanes, lane, p.deferred, x);
    JoinedLast(OfLane(lanes, lane, front), OfLane(lanes, lane, p.wave), OfLane(lanes, lane, p.deferred),
               if lanes[x] == lane then [x] else []);
  }

  /** Within a lane the wave takes the first issuers and the others keep their order. */
  lemma {:induction false} SweepKeepsLaneOrder(lanes: Lanes, limit: nat, pending: seq<string>, lane: string)
    requires Assigned(lanes, pending)
    ensures var p := Sweep(lanes, limit, pending);
      OfLane(lanes, lane, pending) == OfLane(lanes, lane, p.wave) + OfLane(lanes, lane, p.deferred)
  {
    if pending != [] {
      var front, x := pending[..|pending| - 1], pending[|pending| - 1];
      assert pending == front + [x];
      SweepKeepsLaneOrder(lanes, limit, front, lane);
      ExclusiveTail(lanes, limit, front, lane);
      var p := Sweep(lanes, limit, front);
      if |p.wave| < limit && lanes[x] !in LanesOf(lanes, p.wave) {
        OrderAfterAdmission(lanes, lane, front, p, x);
      } else {
        OrderAfterDeferral(lanes, lane, front, p, x);
      }
    }
  }

  lemma LaneTaken(lanes: Lanes, wave: seq<string>)
    requires LaneExclusive(lanes, wave) && wave != []
    ensures lanes[wave[|wave| - 1]] !in LanesOf(lanes, wave[..|wave| - 1])
  {
    var n := |wave| - 1;
    forall x | x in wave[..n] ensures lanes[x] != lanes[wave[n]] {
      var i :| 0 <= i < n && wave[i] == x;
      assert SeparateLanes(lanes, wave, i, n);
    }
  }

  lemma {:induction false} ExclusiveLoad(lanes: Lanes, lane: string, wave: seq<string>)
    requires LaneExclusive(lanes, wave)
    ensures Load(lanes, lane, wave) <= 1
    ensures Load(lanes, lane, wave) == 1 <==> lane in LanesOf(lanes, wave)
  {
    if wave != [] {
      var n := |wave| - 1;
      assert LaneExclusive(lanes, wave[..n]) by {
        forall i, j | 0 <= i < j < n ensures SeparateLanes(lanes, wave[..n], i, j) {
          assert SeparateLanes(lanes, wave, i, j);
        }
      }
      ExclusiveLoad(lanes, lane, wave[..n]);
      assert wave == wave[..n] + [wave[n]];
      assert LanesOf(lanes, wave) == LanesOf(lanes, wave[..n]) + {lanes[wave[n]]};
      LaneTaken(lanes, wave);
    }
  }

  // ---------- The schedule ----------

  /** Waves are admissible and never empty, every issuer is screened exactly once, and each lane works through its own
      issuers in their order. */
  lemma {:induction false} ScheduleIsSound(lanes: Lanes, limit: nat, pending: seq<string>)
    requires Assigned(lanes, pending) && limit > 0
    ensures var waves := Schedule(lanes, limit, pending);
      && Admissible(lanes, limit, waves)
      && (forall i :: 0 <= i < |waves| ==> waves[i] != [])
      && multiset(Flatten(waves)) == multiset(pending)
      && Assigned(lanes, Flatten(waves))
    decreases |pending|
  {
    if pending != [] {
      var p := Sweep(lanes, limit, pending);
      SweepIsExclusive(lanes, limit, pending);
      ScheduleIsSound(lanes, limit, p.deferred);
      var rest := Schedule(lanes, limit, p.deferred);
      assert Schedule(lanes, limit, pending)[1..] == rest;
      assert Flatten(Schedule(lanes, limit, pending)) == p.wave + Flatten(rest);
      forall i | 0 <= i < |rest| + 1 ensures ([p.wave] + rest)[i] != [] &&
        |([p.wave] + rest)[i]| <= limit && LaneExclusive(lanes, ([p.wave] + rest)[i])
      {
        if i > 0 { assert ([p.wave] + rest)[i] == rest[i - 1]; }
      }
    }
  }

  lemma {:induction false} LanesKeepOrder(lanes: Lanes, limit: nat, pending: seq<string>, lane: string)
    requires Assigned(lanes, pending) && limit > 0
    ensures Assigned(lanes, Flatten(Schedule(lanes, limit, pending)))
    ensures OfLane(lanes, lane, Flatten(Schedule(lanes, limit, pending))) == OfLane(lanes, lane, pending)
    decreases |pending|
  {
    ScheduleIsSound(lanes, limit, pending);
    if pending != [] {
      var p := Sweep(lanes, limit, pending);
      LanesKeepOrder(lanes, limit, p.deferred, lane);
      SweepKeepsLaneOrder(lanes, limit, pending, lane);
      assert Schedule(lanes, limit, pending)[1..] == Schedule(lanes, limit, p.deferred);
      OfLaneAppend(lanes, lane, p.wave, Flatten(Schedule(lanes, limit, p.deferred)));
    }
  }

  // ---------- How many waves ----------

  ghost predicate LoadsWithin(lanes: Lanes, issuers: seq<string>, bound: nat)
    requires Assigned(lanes, issuers)
  {
    forall lane :: Load(lanes, lane, issuers) <= bound
  }

  /** The largest lane load. */
  function MaxLoadUpTo(lanes: Lanes, issuers: seq<string>, n: nat): nat
    requires Assigned(lanes, issuers) && n <= |issuers|
  {
    if n == 0 then 0
    else
      var before, load := MaxLoadUpTo(lanes, issuers, n - 1), Load(lanes, lanes[issuers[n - 1]], issuers);
      if load > before then load else before
  }

  function MaxLoad(lanes: Lanes, issuers: seq<string>): nat
    requires Assigned(lanes, issuers)
  {
    MaxLoadUpTo(lanes, issuers, |issuers|)
  }

  lemma {:induction false} MaxLoadBounds(lanes: Lanes, issuers: seq<string>, n: nat, i: nat)
    requires Assigned(lanes, issuers) && i < n <= |issuers|
    ensures Load(lanes, lanes[issuers[i]], issuers) <= MaxLoadUpTo(lanes, issuers, n)
  {
    if i < n - 1 { MaxLoadBounds(lanes, issuers, n - 1, i); }
  }

  lemma {:induction false} MaxLoadIsReached(lanes: Lanes, issuers: seq<string>, n: nat)
    requires Assigned(lanes, issuers) && n <= |issuers|
    ensures MaxLoadUpTo(lanes, issuers, n) == 0
      || exists lane :: MaxLoadUpTo(lanes, issuers, n) == Load(lanes, lane, issuers)
  {
    if n > 0 && MaxLoadUpTo(lanes, issuers, n) == MaxLoadUpTo(lanes, issuers, n - 1) {
      MaxLoadIsReached(lanes, issuers, n - 1);
    }
  }

  lemma MaxLoadIsMax(lanes: Lanes, issuers: seq<string>)
    requires Assigned(lanes, issuers)
    ensures LoadsWithin(lanes, issuers, MaxLoad(lanes, issuers))
    ensures MaxLoad(lanes, issuers) == 0 || exists lane :: MaxLoad(lanes, issuers) == Load(lanes, lane, issuers)
  {
    MaxLoadIsReached(lanes, issuers, |issuers|);
    forall lane ensures Load(lanes, lane, issuers) <= MaxLoad(lanes, issuers) {
      if lane in LanesOf(lanes, issuers) {
        var x :| x in issuers && lanes[x] == lane;
        var i :| 0 <= i < |issuers| && issuers[i] == x;
        MaxLoadBounds(lanes, issuers, |issuers|, i);
      } else {
        LaneHasWork(lanes, lane, issuers);
      }
    }
  }

  /** A wave that touches every lane with work takes one issuer from each, and lowers the largest load. */
  lemma CoveringWaveLowersLoads(lanes: Lanes, limit: nat, pending: seq<string>, bound: nat)
    requires Assigned(lanes, pending) && limit > 0 && pending != [] && LoadsWithin(lanes, pending, bound)
    requires LanesOf(lanes, pending) <= LanesOf(lanes, Sweep(lanes, limit, pending).wave)
    ensures bound > 0 && LoadsWithin(lanes, Sweep(lanes, limit, pending).deferred, bound - 1)
  {
    var p := Sweep(lanes, limit, pending);
    SweepIsExclusive(lanes, limit, pending);
    var busy := lanes[pending[0]];
    LaneHasWork(lanes, busy, pending);
    assert Load(lanes, busy, pending) <= bound;
    forall lane ensures Load(lanes, lane, p.deferred) <= bound - 1 {
      SweepKeepsLaneOrder(lanes, limit, pending, lane);
      ExclusiveLoad(lanes, lane, p.wave);
      LaneHasWork(lanes, lane, pending);
      assert Load(lanes, lane, pending) <= bound;
    }
  }

  /** A wave that is not full touches every lane with work. */
  lemma ShortWaveCovers(lanes: Lanes, limit: nat, pending: seq<string>)
    requires Assigned(lanes, pending) && |Sweep(lanes, limit, pending).wave| < limit
    ensures LanesOf(lanes, pending) <= LanesOf(lanes, Sweep(lanes, limit, pending).wave)
  {
    forall lane | lane in LanesOf(lanes, pending) ensures lane in LanesOf(lanes, Sweep(lanes, limit, pending).wave) {
      SweepKeepsLaneOrder(lanes, limit, pending, lane);
      ExclusiveTail(lanes, limit, pending, lane);
      LaneHasWork(lanes, lane, pending);
      LaneHasWork(lanes, lane, Sweep(lanes, limit, pending).wave);
    }
  }

  lemma DeferringLowersNoLoad(lanes: Lanes, limit: nat, pending: seq<string>, bound: nat)
    requires Assigned(lanes, pending) && LoadsWithin(lanes, pending, bound)
    ensures LoadsWithin(lanes, Sweep(lanes, limit, pending).deferred, bound)
  {
    forall lane ensures Load(lanes, lane, Sweep(lanes, limit, pending).deferred) <= bound {
      SweepKeepsLaneOrder(lanes, limit, pending, lane);
      assert Load(lanes, lane, pending) <= bound;
    }
  }

  /** At most one wave for every `limit` issuers and one for every issuer of the busiest lane. */
  lemma {:induction false} WaveBound(lanes: Lanes, limit: nat, pending: seq<string>, bound: nat)
    requires Assigned(lanes, pending) && limit > 0 && LoadsWithin(lanes, pending, bound)
    ensures |Schedule(lanes, limit, pending)| * limit <= |pending| + bound * limit
    decreases |pending|
  {
    if pending != [] {
      var p := Sweep(lanes, limit, pending);
      if |p.wave| == limit {
        DeferringLowersNoLoad(lanes, limit, pending, bound);
        WaveBound(lanes, limit, p.deferred, bound);
        FullWaveBound(|Schedule(lanes, limit, p.deferred)|, |p.deferred|, bound, limit);
      } else {
        ShortWaveCovers(lanes, limit, pending);
        CoveringWaveLowersLoads(lanes, limit, pending, bound);
        WaveBound(lanes, limit, p.deferred, bound - 1);
        CoveringWaveBound(|Schedule(lanes, limit, p.deferred)|, |p.deferred|, bound - 1, limit);
      }
    }
  }

  lemma Distribute(n: nat, limit: nat)
    ensures (n + 1) * limit == n * limit + limit
  {
  }

  lemma FullWaveBound(waves: nat, rest: nat, bound: nat, limit: nat)
    requires waves * limit <= rest + bound * limit
    ensures (waves + 1) * limit <= (rest + limit) + bound * limit
  {
    Distribute(waves, limit);
  }

  lemma CoveringWaveBound(waves: nat, rest: nat, bound: nat, limit: nat)
    requires waves * limit <= rest + bound * limit
    ensures (waves + 1) * limit <= rest + (bound + 1) * limit
  {
    Distribute(waves, limit);
    Distribute(bound, limit);
  }

  lemma DistributeSum(a: nat, b: nat, limit: nat)
    ensures (a + b + 1) * limit == a * limit + b * limit + limit
  {
  }

  lemma Divided(a: nat, b: nat, n: nat, limit: nat)
    requires limit > 0 && a * limit <= n + b * limit
    ensures a <= n / limit + b
  {
    var q := n / limit;
    assert n == q * limit + n % limit;
    DistributeSum(q, b, limit);
    if a > q + b { Larger(q + b + 1, a, limit); }
  }

  lemma Cancelled(a: nat, b: nat, c: nat, limit: nat)
    requires limit > 0 && a * limit <= c * limit + b * limit
    ensures a <= b + c
  {
    DistributeSum(b, c, limit);
    if a > b + c { Larger(b + c + 1, a, limit); }
  }

  lemma Larger(a: nat, b: nat, c: nat)
    requires a <= b
    ensures a * c <= b * c
  {
  }

  /** The busiest lane: with room for every lane, the schedule needs no wave beyond its load. */
  lemma {:induction false} RoomForEveryLane(lanes: Lanes, limit: nat, pending: seq<string>, bound: nat)
    requires Assigned(lanes, pending) && limit > 0 && |LanesOf(lanes, pending)| <= limit
    requires LoadsWithin(lanes, pending, bound)
    ensures |Schedule(lanes, limit, pending)| <= bound
    decreases |pending|
  {
    if pending != [] {
      var p := Sweep(lanes, limit, pending);
      SweepIsExclusive(lanes, limit, pending);
      assert forall x :: x in multiset(pending) <==> x in multiset(p.wave) || x in multiset(p.deferred);
      var all := LanesOf(lanes, pending);
      assert LanesOf(lanes, p.wave) <= all && LanesOf(lanes, p.deferred) <= all by {
        forall x | x in p.wave || x in p.deferred ensures x in pending { assert x in multiset(pending); }
      }
      ExclusiveLanes(lanes, p.wave);
      SubsetSize(LanesOf(lanes, p.wave), LanesOf(lanes, pending));
      SubsetSize(LanesOf(lanes, p.deferred), LanesOf(lanes, pending));
      if |p.wave| < limit { ShortWaveCovers(lanes, limit, pending); }
      CoveringWaveLowersLoads(lanes, limit, pending, bound);
      RoomForEveryLane(lanes, limit, p.deferred, bound - 1);
    }
  }

  lemma {:induction false} ExclusiveLanes(lanes: Lanes, wave: seq<string>)
    requires LaneExclusive(lanes, wave)
    ensures |LanesOf(lanes, wave)| == |wave|
  {
    if wave != [] {
      var n := |wave| - 1;
      forall i, j | 0 <= i < j < n ensures SeparateLanes(lanes, wave[..n], i, j) {
        assert SeparateLanes(lanes, wave, i, j);
      }
      ExclusiveLanes(lanes, wave[..n]);
      assert wave == wave[..n] + [wave[n]];
      assert LanesOf(lanes, wave) == LanesOf(lanes, wave[..n]) + {lanes[wave[n]]};
      LaneTaken(lanes, wave);
    }
  }

  // ---------- Against any other schedule ----------

  lemma LoadWithout(lanes: Lanes, lane: string, b: seq<string>, i: nat)
    requires Assigned(lanes, b) && i < |b|
    ensures Load(lanes, lane, b) == Load(lanes, lane, b[..i] + b[i + 1..]) + (if lanes[b[i]] == lane then 1 else 0)
    ensures multiset(b[..i] + b[i + 1..]) == multiset(b) - multiset{b[i]}
  {
    var left, right := b[..i], b[i + 1..];
    assert b == (left + [b[i]]) + right;
    OfLaneAppend(lanes, lane, left + [b[i]], right);
    OfLaneAppend(lanes, lane, left, right);
    OfLaneStep(lanes, lane, left, b[i]);
    assert multiset(b) == multiset(left) + multiset{b[i]} + multiset(right);
  }

  lemma {:induction false} LoadOfPermutation(lanes: Lanes, lane: string, a: seq<string>, b: seq<string>)
    requires multiset(a) == multiset(b) && Assigned(lanes, a) && Assigned(lanes, b)
    ensures Load(lanes, lane, a) == Load(lanes, lane, b)
  {
    if a == [] {
      assert |multiset(b)| == 0;
    } else {
      var n := |a| - 1;
      assert a[n] in multiset(b);
      var i :| 0 <= i < |b| && b[i] == a[n];
      assert a[..n] + a[n + 1..] == a[..n];
      LoadWithout(lanes, lane, a, n);
      LoadWithout(lanes, lane, b, i);
      LoadOfPermutation(lanes, lane, a[..n], b[..i] + b[i + 1..]);
    }
  }

  lemma {:induction false} AnyScheduleNeeds(lanes: Lanes, limit: nat, waves: seq<seq<string>>, lane: string)
    requires Admissible(lanes, limit, waves)
    ensures Assigned(lanes, Flatten(waves))
    ensures Load(lanes, lane, Flatten(waves)) <= |waves|
    ensures |Flatten(waves)| <= |waves| * limit
  {
    if waves != [] {
      assert Admissible(lanes, limit, waves[1..]) by {
        forall i | 0 <= i < |waves[1..]| ensures |waves[1..][i]| <= limit && LaneExclusive(lanes, waves[1..][i]) {
          assert waves[1..][i] == waves[i + 1];
        }
      }
      AnyScheduleNeeds(lanes, limit, waves[1..], lane);
      ExclusiveLoad(lanes, lane, waves[0]);
      OfLaneAppend(lanes, lane, waves[0], Flatten(waves[1..]));
      assert |waves| * limit == |waves[1..]| * limit + limit by { Distribute(|waves[1..]|, limit); }
    }
  }

  predicate SchedulesAll(lanes: Lanes, limit: nat, waves: seq<seq<string>>, issuers: seq<string>) {
    Admissible(lanes, limit, waves) && multiset(Flatten(waves)) == multiset(issuers)
  }

  /** Every admissible schedule needs as many waves as the busiest lane has issuers. */
  lemma BusiestLaneIsABound(lanes: Lanes, limit: nat, issuers: seq<string>, other: seq<seq<string>>)
    requires Assigned(lanes, issuers) && SchedulesAll(lanes, limit, other, issuers)
    ensures MaxLoad(lanes, issuers) <= |other| && |issuers| <= |other| * limit
  {
    MaxLoadIsMax(lanes, issuers);
    AnyScheduleNeeds(lanes, limit, other, "");
    assert |multiset(Flatten(other))| == |multiset(issuers)|;
    if MaxLoad(lanes, issuers) > 0 {
      var lane :| MaxLoad(lanes, issuers) == Load(lanes, lane, issuers);
      AnyScheduleNeeds(lanes, limit, other, lane);
      LoadOfPermutation(lanes, lane, Flatten(other), issuers);
    }
  }

  /** The greedy waves are within the bound, hence at most twice as many as any admissible schedule needs; with room
      for every lane they are the fewest possible. */
  lemma WavesAreFew(lanes: Lanes, limit: nat, issuers: seq<string>, other: seq<seq<string>>)
    requires Assigned(lanes, issuers) && limit > 0 && SchedulesAll(lanes, limit, other, issuers)
    ensures |Schedule(lanes, limit, issuers)| <= |issuers| / limit + MaxLoad(lanes, issuers)
    ensures |Schedule(lanes, limit, issuers)| <= 2 * |other|
    ensures |LanesOf(lanes, issuers)| <= limit ==>
      |Schedule(lanes, limit, issuers)| == MaxLoad(lanes, issuers) <= |other|
  {
    var waves, load := Schedule(lanes, limit, issuers), MaxLoad(lanes, issuers);
    MaxLoadIsMax(lanes, issuers);
    WaveBound(lanes, limit, issuers, load);
    Divided(|waves|, load, |issuers|, limit);
    BusiestLaneIsABound(lanes, limit, issuers, other);
    Cancelled(|waves|, load, |other|, limit);
    if |LanesOf(lanes, issuers)| <= limit {
      RoomForEveryLane(lanes, limit, issuers, load);
      ScheduleIsSound(lanes, limit, issuers);
      BusiestLaneIsABound(lanes, limit, issuers, waves);
    }
  }

  // ---------- When the greedy waves are always the fewest ----------

  /** Distinct issuers on at most n lanes. */
  ghost predicate OnLanes(lanes: Lanes, n: nat, issuers: seq<string>) {
    Assigned(lanes, issuers) && Unique(issuers) && |LanesOf(lanes, issuers)| <= n
  }

  /** Whatever issuers, on at most n lanes, no admissible schedule has fewer waves. */
  ghost predicate AlwaysOptimal(limit: nat, n: nat)
    requires limit > 0
  {
    forall lanes, issuers, other :: Optimal(lanes, limit, n, issuers, other)
  }

  ghost predicate Optimal(lanes: Lanes, limit: nat, n: nat, issuers: seq<string>, other: seq<seq<string>>)
    requires limit > 0
  {
    OnLanes(lanes, n, issuers) && SchedulesAll(lanes, limit, other, issuers) ==>
      |Schedule(lanes, limit, issuers)| <= |other|
  }

  // ---------- Waves of issuers on different lanes ----------

  lemma {:induction false} ExclusiveWaves(lanes: Lanes, limit: nat, pending: seq<string>)
    requires LaneExclusive(lanes, pending) && limit > 0
    ensures |Schedule(lanes, limit, pending)| * limit < |pending| + limit
    decreases |pending|
  {
    if pending != [] {
      var p := Sweep(lanes, limit, pending);
      ExclusivePass(lanes, limit, pending);
      if |pending| > limit {
        ExclusiveSuffix(lanes, pending, limit);
        ExclusiveWaves(lanes, limit, p.deferred);
      }
      Distribute(|Schedule(lanes, limit, p.deferred)|, limit);
    }
  }

  lemma Crossed(waves: nat, other: nat, rest: nat, limit: nat)
    requires waves * limit < rest + limit && rest + limit <= other * limit
    ensures waves + 1 <= other
  {
    if waves >= other { Larger(other, waves, limit); }
  }

  /** Once the first wave leaves no two issuers of one lane behind, the schedule is as short as any. */
  lemma ExclusiveRestIsOptimal(lanes: Lanes, limit: nat, pending: seq<string>, other: seq<seq<string>>)
    requires Assigned(lanes, pending) && limit > 0 && SchedulesAll(lanes, limit, other, pending)
    requires LaneExclusive(lanes, Sweep(lanes, limit, pending).deferred)
    ensures |Schedule(lanes, limit, pending)| <= |other|
  {
    var p := Sweep(lanes, limit, pending);
    BusiestLaneIsABound(lanes, limit, pending, other);
    if |p.wave| == limit {
      ExclusiveWaves(lanes, limit, p.deferred);
      Crossed(|Schedule(lanes, limit, p.deferred)|, |other|, |p.deferred|, limit);
    } else {
      ShortWaveCovers(lanes, limit, pending);
      SweepIsExclusive(lanes, limit, pending);
      ExclusiveLanes(lanes, p.wave);
      SubsetSize(LanesOf(lanes, pending), LanesOf(lanes, p.wave));
      WavesAreFew(lanes, limit, pending, other);
    }
  }

  /** The family that fails: one issuer on each of `limit` lanes, then two on one lane more. */
  ghost predicate Overfull(lanes: Lanes, limit: nat, singles: seq<string>, x: string, y: string) {
    && |singles| == limit >= 2 && LaneExclusive(lanes, singles) && x in lanes && y in lanes
    && lanes[x] == lanes[y] && lanes[x] !in LanesOf(lanes, singles)
  }

  /** Two waves suffice: all but one of the singles with the first of the pair, then the last single with the second. */
  function TwoWaves(singles: seq<string>, x: string, y: string): seq<seq<string>>
    requires singles != []
  {
    var n := |singles| - 1;
    [singles[..n] + [x], [singles[n], y]]
  }

  lemma WavePrefix(lanes: Lanes, wave: seq<string>, n: nat)
    requires LaneExclusive(lanes, wave) && n < |wave|
    ensures Assigned(lanes, wave[..n]) && lanes[wave[n]] !in LanesOf(lanes, wave[..n])
    ensures Assigned(lanes, wave[n + 1..]) && lanes[wave[n]] !in LanesOf(lanes, wave[n + 1..])
  {
    forall x | x in wave[..n] ensures lanes[x] != lanes[wave[n]] {
      var i :| 0 <= i < n && wave[i] == x;
      assert SeparateLanes(lanes, wave, i, n);
    }
    forall x | x in wave[n + 1..] ensures lanes[x] != lanes[wave[n]] {
      var i :| n < i < |wave| && wave[i] == x;
      assert SeparateLanes(lanes, wave, n, i);
    }
  }

  /** The first of them, up to the limit, and the others. */
  function SplitAt(pending: seq<string>, limit: nat): Pass {
    var n := Least(|pending|, limit);
    Pass(pending[..n], pending[n..])
  }

  lemma SplitLonger(front: seq<string>, x: string, limit: nat)
    ensures SplitAt(front + [x], limit) ==
      var p := SplitAt(front, limit);
      if |front| < limit then Pass(p.wave + [x], p.deferred) else Pass(p.wave, p.deferred + [x])
  {
  }

  lemma ExclusiveSweepStep(lanes: Lanes, limit: nat, front: seq<string>, x: string)
    requires Assigned(lanes, front) && x in lanes && lanes[x] !in LanesOf(lanes, front)
    requires Sweep(lanes, limit, front) == SplitAt(front, limit)
    ensures Sweep(lanes, limit, front + [x]) == SplitAt(front + [x], limit)
  {
    SweepStep(lanes, limit, front, x);
    SplitLonger(front, x, limit);
    if |front| < limit { TakeAll(front); }
  }

  /** Of issuers on different lanes a wave takes the first, up to the limit. */
  lemma {:induction false} ExclusivePass(lanes: Lanes, limit: nat, pending: seq<string>)
    requires LaneExclusive(lanes, pending)
    ensures Sweep(lanes, limit, pending) == SplitAt(pending, limit)
  {
    if pending != [] {
      var front, x := pending[..|pending| - 1], pending[|pending| - 1];
      ExclusivePrefix(lanes, pending, |front|);
      LaneTaken(lanes, pending);
      ExclusivePass(lanes, limit, front);
      ExclusiveSweepStep(lanes, limit, front, x);
      LastTaken(pending);
    }
  }

  lemma ExclusivePrefix(lanes: Lanes, wave: seq<string>, n: nat)
    requires LaneExclusive(lanes, wave) && n <= |wave|
    ensures LaneExclusive(lanes, wave[..n])
  {
    forall i, j | 0 <= i < j < n ensures SeparateLanes(lanes, wave[..n], i, j) {
      assert SeparateLanes(lanes, wave, i, j);
    }
  }

  lemma ExclusiveSuffix(lanes: Lanes, wave: seq<string>, n: nat)
    requires LaneExclusive(lanes, wave) && n <= |wave|
    ensures LaneExclusive(lanes, wave[n..])
  {
    forall i, j | 0 <= i < j < |wave| - n ensures SeparateLanes(lanes, wave[n..], i, j) {
      assert SeparateLanes(lanes, wave, n + i, n + j);
    }
  }

  /** The full first wave defers both of the pair, which then take a wave each. */
  lemma OverfullSweeps(lanes: Lanes, limit: nat, singles: seq<string>, x: string, y: string)
    requires Overfull(lanes, limit, singles, x, y)
    ensures Assigned(lanes, singles + [x] + [y])
    ensures Sweep(lanes, limit, singles + [x] + [y]) == Pass(singles, [x, y])
  {
    ExclusivePass(lanes, limit, singles);
    SweepStep(lanes, limit, singles, x);
    SweepStep(lanes, limit, singles + [x], y);
    assert [] + [x] == [x] && [x] + [y] == [x, y];
  }

  lemma SharedLaneSweeps(lanes: Lanes, limit: nat, x: string, y: string)
    requires limit > 0 && x in lanes && y in lanes && lanes[x] == lanes[y]
    ensures Sweep(lanes, limit, [x, y]) == Pass([x], [y])
  {
    assert [] + [x] == [x] && [x] + [y] == [x, y];
    SweepStep(lanes, limit, [], x);
    assert lanes[x] in LanesOf(lanes, [x]) by { assert x in [x]; }
    SweepStep(lanes, limit, [x], y);
  }

  lemma OverfullTakesThree(lanes: Lanes, limit: nat, singles: seq<string>, x: string, y: string)
    requires Overfull(lanes, limit, singles, x, y)
    ensures Assigned(lanes, singles + [x] + [y])
    ensures |Schedule(lanes, limit, singles + [x] + [y])| >= 3
  {
    OverfullSweeps(lanes, limit, singles, x, y);
    SharedLaneSweeps(lanes, limit, x, y);
    assert |Schedule(lanes, limit, [y])| >= 1;
    assert |Schedule(lanes, limit, [x, y])| >= 2;
  }

  lemma TwoWavesAreFlat(singles: seq<string>, x: string, y: string)
    requires singles != []
    ensures multiset(Flatten(TwoWaves(singles, x, y))) == multiset(singles + [x] + [y])
  {
    var n, waves := |singles| - 1, TwoWaves(singles, x, y);
    assert waves[1..] == [[singles[n], y]] && Flatten(waves[1..]) == [singles[n], y];
    assert Flatten(waves) == (singles[..n] + [x]) + [singles[n], y];
    assert singles == singles[..n] + [singles[n]];
  }

  lemma TwoWavesSuffice(lanes: Lanes, limit: nat, singles: seq<string>, x: string, y: string)
    requires Overfull(lanes, limit, singles, x, y)
    ensures SchedulesAll(lanes, limit, TwoWaves(singles, x, y), singles + [x] + [y])
  {
    var n := |singles| - 1;
    ExclusivePrefix(lanes, singles, n);
    ExclusiveAppend(lanes, singles[..n], x);
    TwoWavesAreFlat(singles, x, y);
    assert LaneExclusive(lanes, [singles[n], y]) by {
      assert lanes[singles[n]] in LanesOf(lanes, singles);
      assert SeparateLanes(lanes, [singles[n], y], 0, 1);
    }
  }

  lemma OverfullIsBeaten(lanes: Lanes, limit: nat, singles: seq<string>, x: string, y: string)
    requires Overfull(lanes, limit, singles, x, y)
    ensures var issuers := singles + [x] + [y];
      && SchedulesAll(lanes, limit, TwoWaves(singles, x, y), issuers)
      && |Schedule(lanes, limit, issuers)| > |TwoWaves(singles, x, y)|
  {
    OverfullTakesThree(lanes, limit, singles, x, y);
    TwoWavesSuffice(lanes, limit, singles, x, y);
  }

  /** Distinct names for issuers and lanes. */
  function Name(i: nat): string {
    seq(i, _ => 'x')
  }

  function Names(n: nat): seq<string> {
    seq(n, i requires 0 <= i < n => Name(i))
  }

  /** Each of the first issuers has a lane of its own, the last shares the lane of the one before. */
  function OverfullLanes(limit: nat): Lanes {
    map x | x in Names(limit + 2) :: if |x| <= limit then x else Name(limit)
  }

  lemma OverfullExists(limit: nat)
    requires limit >= 2
    ensures var lanes := OverfullLanes(limit);
      && Overfull(lanes, limit, Names(limit), Name(limit), Name(limit + 1))
      && Unique(Names(limit) + [Name(limit)] + [Name(limit + 1)])
      && LanesOf(lanes, Names(limit) + [Name(limit)] + [Name(limit + 1)]) <= Elements(Names(limit + 1))
  {
    var lanes, singles := OverfullLanes(limit), Names(limit);
    var all := singles + [Name(limit)] + [Name(limit + 1)];
    assert all == Names(limit + 2);
    forall i, j | 0 <= i < j < limit + 2 ensures Differ(all, i, j) { assert |all[i]| == i && |all[j]| == j; }
    forall i | 0 <= i < limit + 2 ensures all[i] in lanes && lanes[all[i]] == Name(if i <= limit then i else limit) {
      assert all[i] == Name(i) && all[i] in Names(limit + 2);
    }
    forall i, j | 0 <= i < j < limit ensures SeparateLanes(lanes, singles, i, j) {
      assert singles[i] == all[i] && singles[j] == all[j] && |Name(i)| == i && |Name(j)| == j;
    }
    forall x | x in singles ensures lanes[x] != Name(limit) {
      var i :| 0 <= i < limit && singles[i] == x;
      assert x == all[i] && |Name(i)| == i && |Name(limit)| == limit;
    }
    assert all[limit] == Name(limit) && all[limit + 1] == Name(limit + 1);
    forall x | x in all ensures lanes[x] in Names(limit + 1) {
      var i :| 0 <= i < limit + 2 && all[i] == x;
      assert Names(limit + 1)[if i <= limit then i else limit] == lanes[x];
    }
  }

  lemma OneSlotIsOptimal(lanes: Lanes, issuers: seq<string>, other: seq<seq<string>>)
    requires Assigned(lanes, issuers) && SchedulesAll(lanes, 1, other, issuers)
    ensures |Schedule(lanes, 1, issuers)| <= |other|
  {
    BusiestLaneIsABound(lanes, 1, issuers, other);
    OneSlotSchedule(lanes, issuers);
  }

  lemma {:induction false} OneSlotSchedule(lanes: Lanes, pending: seq<string>)
    requires Assigned(lanes, pending)
    ensures |Schedule(lanes, 1, pending)| == |pending|
    decreases |pending|
  {
    if pending != [] { OneSlotSchedule(lanes, Sweep(lanes, 1, pending).deferred); }
  }

  lemma DistinctNames(n: nat)
    ensures |Elements(Names(n))| == n
  {
    forall i, j | 0 <= i < j < n ensures Differ(Names(n), i, j) { assert |Names(n)[i]| == i && |Names(n)[j]| == j; }
    UniqueLength(Names(n));
  }

  lemma OverfullIsOnLanes(limit: nat)
    requires limit >= 2
    ensures OnLanes(OverfullLanes(limit), limit + 1, Names(limit) + [Name(limit)] + [Name(limit + 1)])
  {
    OverfullExists(limit);
    DistinctNames(limit + 1);
    SubsetSize(LanesOf(OverfullLanes(limit), Names(limit) + [Name(limit)] + [Name(limit + 1)]),
               Elements(Names(limit + 1)));
  }

  lemma OverfullIsNotOptimal(limit: nat, n: nat)
    requires 2 <= limit < n
    ensures var singles, x, y := Names(limit), Name(limit), Name(limit + 1);
      !Optimal(OverfullLanes(limit), limit, n, singles + [x] + [y], TwoWaves(singles, x, y))
  {
    var lanes, singles, x, y := OverfullLanes(limit), Names(limit), Name(limit), Name(limit + 1);
    OverfullExists(limit);
    OverfullIsOnLanes(limit);
    OverfullIsBeaten(lanes, limit, singles, x, y);
  }

  /** The exact condition: greedy waves are always the fewest with one slot, or with room for every lane, and in no
      other case. */
  lemma GreedyIsOptimalIff(limit: nat, n: nat)
    requires limit > 0
    ensures AlwaysOptimal(limit, n) <==> limit == 1 || limit >= n
  {
    if limit == 1 || limit >= n {
      forall lanes, issuers, other ensures Optimal(lanes, limit, n, issuers, other) {
        if OnLanes(lanes, n, issuers) && SchedulesAll(lanes, limit, other, issuers) {
          if limit == 1 { OneSlotIsOptimal(lanes, issuers, other); } else { WavesAreFew(lanes, limit, issuers, other); }
        }
      }
    } else {
      OverfullIsNotOptimal(limit, n);
    }
  }
}
