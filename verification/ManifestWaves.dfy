/** When the waves over a manifest's members are the fewest possible (automatic_runtime.py). */
module ManifestWaves {
  import opened Common
  import opened ScreenIntervals
  import opened Waves

  /** Whatever is ready, in the order of the manifest, no admissible schedule has fewer waves. */
  ghost predicate FewestWaves(members: seq<string>, activeSlots: int)
    requires activeSlots >= 1
  {
    forall ready, other :: NoFewerWaves(members, activeSlots, ready, other)
  }

  ghost predicate NoFewerWaves(members: seq<string>, activeSlots: int, ready: set<string>, other: seq<seq<string>>)
    requires activeSlots >= 1
  {
    var lanes, limit, issuers := ManifestLanes(members), WaveLimit(activeSlots), Select(members, ready, true);
    SchedulesAll(lanes, limit, other, issuers) ==> |Schedule(lanes, limit, issuers)| <= |other|
  }

  lemma LanesRepeat(i: nat, j: nat)
    ensures LaneId(i) == LaneId(j) <==> i % LOGICAL_AGENT_LANES == j % LOGICAL_AGENT_LANES
  {
    var a, b := LaneId(i), LaneId(j);
    assert a[|a| - 1] == Digit(i % LOGICAL_AGENT_LANES + 1) && b[|b| - 1] == Digit(j % LOGICAL_AGENT_LANES + 1);
  }

  lemma LaneAt(members: seq<string>, i: nat)
    requires Unique(members) && i < |members|
    ensures Position(members, members[i]) == i && ManifestLanes(members)[members[i]] == LaneId(i)
  {
    SamePlace(members, Position(members, members[i]), i);
  }

  // ---------- The manifests that fail ----------

  /** The first members, one more than there are slots, and the next one on the last of their lanes. */
  function Crowd(members: seq<string>, slots: nat): set<string>
    requires slots + LOGICAL_AGENT_LANES < |members|
  {
    Elements(members[..slots + 1]) + {members[slots + LOGICAL_AGENT_LANES]}
  }

  lemma CrowdAt(members: seq<string>, slots: nat, i: nat)
    requires Unique(members) && slots + LOGICAL_AGENT_LANES < |members| && i < |members|
    ensures members[i] in Crowd(members, slots) <==> i <= slots || i == slots + LOGICAL_AGENT_LANES
  {
    if i <= slots { assert members[..slots + 1][i] == members[i]; }
    if members[i] in members[..slots + 1] {
      var k :| 0 <= k < slots + 1 && members[..slots + 1][k] == members[i];
      SamePlace(members, i, k);
    }
    SamePlace(members, i, slots + LOGICAL_AGENT_LANES);
  }

  lemma SelectStep(members: seq<string>, ready: set<string>, k: nat)
    requires k < |members|
    ensures var before := Select(members[..k], ready, true);
      Select(members[..k + 1], ready, true) == if members[k] in ready then before + [members[k]] else before
  {
    TakeNext(members, k);
  }

  lemma {:induction false} AllSelected(tickers: seq<string>, ready: set<string>)
    requires forall x :: x in tickers ==> x in ready
    ensures Select(tickers, ready, true) == tickers
  {
    if tickers != [] {
      var n := |tickers| - 1;
      AllSelected(tickers[..n], ready);
      TakeNext(tickers, n);
      TakeAll(tickers);
    }
  }

  lemma {:induction false} NoneSelected(members: seq<string>, ready: set<string>, n: nat, k: nat)
    requires n <= k <= |members| && forall i :: n <= i < k ==> members[i] !in ready
    ensures Select(members[..k], ready, true) == Select(members[..n], ready, true)
  {
    if k > n {
      NoneSelected(members, ready, n, k - 1);
      SelectStep(members, ready, k - 1);
    }
  }

  lemma CrowdSelected(members: seq<string>, slots: nat)
    requires Unique(members) && slots + LOGICAL_AGENT_LANES < |members|
    ensures Select(members, Crowd(members, slots), true) ==
      members[..slots] + [members[slots]] + [members[slots + LOGICAL_AGENT_LANES]]
  {
    var ready, last := Crowd(members, slots), slots + LOGICAL_AGENT_LANES;
    forall i | 0 <= i < |members| ensures members[i] in ready <==> i <= slots || i == last {
      CrowdAt(members, slots, i);
    }
    AllSelected(members[..slots + 1], ready);
    NoneSelected(members, ready, slots + 1, last);
    SelectStep(members, ready, last);
    NoneSelected(members, ready, last + 1, |members|);
    TakeAll(members);
    TakeNext(members, slots);
  }

  lemma FirstMembersAreExclusive(members: seq<string>, n: nat)
    requires Unique(members) && n <= LOGICAL_AGENT_LANES && n <= |members|
    ensures LaneExclusive(ManifestLanes(members), members[..n])
  {
    forall i, j | 0 <= i < j < n ensures SeparateLanes(ManifestLanes(members), members[..n], i, j) {
      LaneAt(members, i);
      LaneAt(members, j);
      LanesRepeat(i, j);
    }
  }

  lemma CrowdIsOverfull(members: seq<string>, slots: nat)
    requires Unique(members) && 2 <= slots < LOGICAL_AGENT_LANES && slots + LOGICAL_AGENT_LANES < |members|
    ensures Overfull(ManifestLanes(members), slots, members[..slots],
                     members[slots], members[slots + LOGICAL_AGENT_LANES])
  {
    var lanes := ManifestLanes(members);
    FirstMembersAreExclusive(members, slots + 1);
    ExclusivePrefix(lanes, members[..slots + 1], slots);
    WavePrefix(lanes, members[..slots + 1], slots);
    TakeNext(members, slots);
    LaneAt(members, slots);
    LaneAt(members, slots + LOGICAL_AGENT_LANES);
    LanesRepeat(slots, slots + LOGICAL_AGENT_LANES);
  }

  /** With two slots: the members at 0, 1, 2 and 10 take three waves where two would do, and so on up to seven slots. */
  lemma CrowdTakesThree(members: seq<string>, slots: nat)
    requires Unique(members) && 2 <= slots < LOGICAL_AGENT_LANES && slots + LOGICAL_AGENT_LANES < |members|
    ensures var lanes, issuers := ManifestLanes(members), Select(members, Crowd(members, slots), true);
      && |Schedule(lanes, slots, issuers)| >= 3
      && SchedulesAll(lanes, slots,
                      TwoWaves(members[..slots], members[slots], members[slots + LOGICAL_AGENT_LANES]), issuers)
  {
    CrowdSelected(members, slots);
    CrowdIsOverfull(members, slots);
    var lanes, singles, x, y :=
      ManifestLanes(members), members[..slots], members[slots], members[slots + LOGICAL_AGENT_LANES];
    OverfullTakesThree(lanes, slots, singles, x, y);
    TwoWavesSuffice(lanes, slots, singles, x, y);
  }

  // ---------- The manifests that do not ----------

  /** Every ready member stands no earlier in the manifest than among the ready. */
  ghost predicate InManifestOrder(members: seq<string>, issuers: seq<string>) {
    forall k :: 0 <= k < |issuers| ==> AfterOthers(members, issuers, k)
  }

  ghost predicate AfterOthers(members: seq<string>, issuers: seq<string>, k: int)
    requires 0 <= k < |issuers|
  {
    && issuers[k] in members && k <= Position(members, issuers[k])
    && forall x :: x in issuers[..k] ==> x in members && Position(members, x) < Position(members, issuers[k])
  }

  lemma SelectedInOrder(members: seq<string>, ready: set<string>)
    requires Unique(members)
    ensures InManifestOrder(members, Select(members, ready, true))
  {
    for n := 0 to |members|
      invariant InOrderBelow(members, Select(members[..n], ready, true), n)
    {
      LaneAt(members, n);
      SelectStep(members, ready, n);
      if members[n] in ready { OneMoreInOrder(members, Select(members[..n], ready, true), n); }
    }
    TakeAll(members);
  }

  /** All below place n. */
  ghost predicate InOrderBelow(members: seq<string>, s: seq<string>, n: nat) {
    InManifestOrder(members, s) && |s| <= n && forall x :: x in s ==> x in members && Position(members, x) < n
  }

  lemma OneMoreInOrder(members: seq<string>, s: seq<string>, n: nat)
    requires n < |members| && Position(members, members[n]) == n && InOrderBelow(members, s, n)
    ensures InOrderBelow(members, s + [members[n]], n + 1)
  {
    var x := members[n];
    forall k | 0 <= k < |s| + 1 ensures AfterOthers(members, s + [x], k) {
      if k < |s| {
        assert AfterOthers(members, s, k) && (s + [x])[..k] == s[..k];
      } else {
        assert (s + [x])[..k] == s;
      }
    }
  }

  /** The first wave takes every ready member whose place in the manifest is below the number of slots. */
  lemma {:induction false} EarlyMembersGoFirst(members: seq<string>, limit: nat, pending: seq<string>)
    requires limit < LOGICAL_AGENT_LANES && InManifestOrder(members, pending)
    requires Assigned(ManifestLanes(members), pending)
    ensures forall x :: x in Sweep(ManifestLanes(members), limit, pending).deferred ==>
      x in members && x in pending && Position(members, x) >= limit
    ensures forall x :: x in Sweep(ManifestLanes(members), limit, pending).wave ==> x in pending
  {
    if pending != [] {
      var lanes, n := ManifestLanes(members), |pending| - 1;
      var front, x := pending[..n], pending[n];
      PrefixInOrder(members, pending, n);
      EarlyMembersGoFirst(members, limit, front);
      assert AfterOthers(members, pending, n);
      if Position(members, x) < limit { EarlyLaneIsFree(members, Sweep(lanes, limit, front).wave, x); }
      TakeNext(pending, n);
      TakeAll(pending);
      SweepStep(lanes, limit, front, x);
    }
  }

  lemma PrefixInOrder(members: seq<string>, issuers: seq<string>, n: nat)
    requires InManifestOrder(members, issuers) && n <= |issuers|
    ensures InManifestOrder(members, issuers[..n])
  {
    forall k | 0 <= k < n ensures AfterOthers(members, issuers[..n], k) {
      assert AfterOthers(members, issuers, k) && issuers[..n][..k] == issuers[..k];
    }
  }

  lemma EarlyLaneIsFree(members: seq<string>, wave: seq<string>, x: string)
    requires x in members && Position(members, x) < LOGICAL_AGENT_LANES
    requires forall y :: y in wave ==> y in members && Position(members, y) < Position(members, x)
    ensures ManifestLanes(members)[x] !in LanesOf(ManifestLanes(members), wave)
  {
    forall y | y in wave ensures ManifestLanes(members)[y] != ManifestLanes(members)[x] {
      EarlyLanesDiffer(Position(members, y), Position(members, x));
    }
  }

  lemma EarlyLanesDiffer(a: nat, b: nat)
    requires a < b < LOGICAL_AGENT_LANES
    ensures LaneId(a) != LaneId(b)
  {
    LanesRepeat(a, b);
  }

  /** Late members of a short manifest are on different lanes. */
  lemma LateMembersAreExclusive(members: seq<string>, limit: nat, late: seq<string>)
    requires Unique(late) && |members| <= limit + LOGICAL_AGENT_LANES && Assigned(ManifestLanes(members), late)
    requires forall x :: x in late ==> x in members && Position(members, x) >= limit
    ensures LaneExclusive(ManifestLanes(members), late)
  {
    forall i, j | 0 <= i < j < |late| ensures SeparateLanes(ManifestLanes(members), late, i, j) {
      assert Differ(late, i, j) && late[i] in late && late[j] in late;
      var a, b := Position(members, late[i]), Position(members, late[j]);
      LateLanesDiffer(a, b, limit);
    }
  }

  lemma LateLanesDiffer(a: nat, b: nat, limit: nat)
    requires a != b && limit <= a < limit + LOGICAL_AGENT_LANES && limit <= b < limit + LOGICAL_AGENT_LANES
    ensures LaneId(a) != LaneId(b)
  {
    LanesRepeat(a, b);
  }

  lemma ShortManifest(members: seq<string>, limit: nat, ready: set<string>, other: seq<seq<string>>)
    requires Unique(members) && 0 < limit < LOGICAL_AGENT_LANES && |members| <= limit + LOGICAL_AGENT_LANES
    requires SchedulesAll(ManifestLanes(members), limit, other, Select(members, ready, true))
    ensures |Schedule(ManifestLanes(members), limit, Select(members, ready, true))| <= |other|
  {
    var lanes, pending := ManifestLanes(members), Select(members, ready, true);
    SelectedInOrder(members, ready);
    SelectIsUnique(members, ready, true);
    EarlyMembersGoFirst(members, limit, pending);
    SweepSplits(lanes, limit, pending);
    LateMembersAreExclusive(members, limit, Sweep(lanes, limit, pending).deferred);
    ExclusiveRestIsOptimal(lanes, limit, pending, other);
  }

  // ---------- The exact condition ----------

  lemma ManyLanes(members: seq<string>, issuers: seq<string>)
    requires forall x :: x in issuers ==> x in members
    ensures Assigned(ManifestLanes(members), issuers)
    ensures |LanesOf(ManifestLanes(members), issuers)| <= LOGICAL_AGENT_LANES
  {
    var lanes, all := ManifestLanes(members), seq(LOGICAL_AGENT_LANES, i requires 0 <= i => LaneId(i));
    forall lane | lane in LanesOf(lanes, issuers) ensures lane in Elements(all) {
      var x :| x in issuers && lanes[x] == lane;
      LanesRepeat(Position(members, x), Position(members, x) % LOGICAL_AGENT_LANES);
      assert all[Position(members, x) % LOGICAL_AGENT_LANES] == lane;
    }
    SubsetSize(LanesOf(lanes, issuers), Elements(all));
    ElementsFew(all);
  }

  /** There are eight lanes at most, so with eight slots or more the waves are as few as can be, in whatever order and
      however often members are listed. */
  lemma EightSlotsAreOptimal(
      members: seq<string>, issuers: seq<string>, activeSlots: int, other: seq<seq<string>>)
    requires activeSlots >= LOGICAL_AGENT_LANES && forall x :: x in issuers ==> x in members
    requires SchedulesAll(ManifestLanes(members), WaveLimit(activeSlots), other, issuers)
    ensures |Schedule(ManifestLanes(members), WaveLimit(activeSlots), issuers)| <= |other|
  {
    ManyLanes(members, issuers);
    WavesAreFew(ManifestLanes(members), WaveLimit(activeSlots), issuers, other);
  }

  /** The waves over a manifest are always the fewest with one slot, with a slot for every lane, or when the manifest
      has at most eight members more than there are slots, and in no other case. */
  lemma FewestWavesIff(members: seq<string>, activeSlots: int)
    requires Unique(members) && activeSlots >= 1
    ensures FewestWaves(members, activeSlots) <==>
      activeSlots == 1 || activeSlots >= LOGICAL_AGENT_LANES || |members| <= activeSlots + LOGICAL_AGENT_LANES
  {
    var lanes, limit := ManifestLanes(members), WaveLimit(activeSlots);
    if activeSlots == 1 || activeSlots >= LOGICAL_AGENT_LANES || |members| <= activeSlots + LOGICAL_AGENT_LANES {
      forall ready, other ensures NoFewerWaves(members, activeSlots, ready, other) {
        if SchedulesAll(lanes, limit, other, Select(members, ready, true)) {
          if activeSlots == 1 {
            OneSlotIsOptimal(lanes, Select(members, ready, true), other);
          } else if activeSlots >= LOGICAL_AGENT_LANES {
            EightSlotsAreOptimal(members, Select(members, ready, true), activeSlots, other);
          } else {
            ShortManifest(members, limit, ready, other);
          }
        }
      }
    } else {
      CrowdTakesThree(members, activeSlots);
      assert !NoFewerWaves(members, activeSlots, Crowd(members, activeSlots),
                           TwoWaves(members[..activeSlots], members[activeSlots],
                                    members[activeSlots + LOGICAL_AGENT_LANES]));
    }
  }
}
