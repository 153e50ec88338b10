/** Tie-aware percentile ranking (calculations/ranking.py) over exact reals: the tie-group loop, the composite score,
    and why the final order does not depend on how the rows were given. */
module Ranking {
  import opened Common
  import opened Sorting

  /** One observed value of a metric. */
  datatype Obs = Obs(id: string, value: real)

  predicate Better(higher: bool, v: real, w: real) {
    if higher then v > w else v < w
  }

  predicate NoWorse(higher: bool, v: real, w: real) {
    !Better(higher, w, v)
  }

  function Order(higher: bool): (Obs, Obs) -> bool {
    (a: Obs, b: Obs) => NoWorse(higher, a.value, b.value)
  }

  function Ids(s: seq<Obs>): set<string> {
    set o | o in s :: o.id
  }

  /** No two values under one ID. */
  predicate OneEach(s: seq<Obs>) {
    forall i, j :: 0 <= i < j < |s| ==> OtherId(s, i, j)
  }

  predicate OtherId(s: seq<Obs>, i: int, j: int)
    requires 0 <= i < |s| && 0 <= j < |s|
  {
    s[i].id != s[j].id
  }

  // ---------- What a rank is ----------

  /** How many values are strictly better than v. */
  function Above(s: seq<Obs>, higher: bool, v: real): nat {
    |Selection(s, (o: Obs) => Better(higher, o.value, v))|
  }

  function Ties(s: seq<Obs>, v: real): nat {
    |Selection(s, (o: Obs) => o.value == v)|
  }

  /** The mean of the places that the values equal to v take together. */
  function AverageRank(s: seq<Obs>, higher: bool, v: real): real {
    Above(s, higher, v) as real + (Ties(s, v) as real + 1.0) / 2.0
  }

  /** The score of a rank among `count` values. */
  function ScoreOf(count: nat, rank: real): real {
    if count <= 1 then 100.0 else 100.0 * (count as real - rank) / (count as real - 1.0)
  }

  function Percentile(s: seq<Obs>, higher: bool, v: real): real {
    ScoreOf(|s|, AverageRank(s, higher, v))
  }

  /** The mean of the places index + 1 to end. */
  function MeanPlace(index: nat, end: nat): real {
    ((index + 1) + end) as real / 2.0
  }

  lemma {:induction false} NoneSelected<T>(s: seq<T>, keep: T -> bool)
    requires forall i :: 0 <= i < |s| ==> !keep(s[i])
    ensures Selection(s, keep) == []
  {
    if s != [] { NoneSelected(s[..|s| - 1], keep); }
  }

  lemma {:induction false} AllSelected<T>(s: seq<T>, keep: T -> bool)
    requires forall i :: 0 <= i < |s| ==> keep(s[i])
    ensures Selection(s, keep) == s
  {
    if s != [] { AllSelected(s[..|s| - 1], keep); }
  }

  /** A maximal run of equal values in an ordered list. */
  ghost predicate TieGroup(s: seq<Obs>, higher: bool, index: nat, end: nat) {
    && index < end <= |s|
    && (forall k :: index <= k < end ==> s[k].value == s[index].value)
    && (forall k :: 0 <= k < index ==> Better(higher, s[k].value, s[index].value))
    && (forall k :: end <= k < |s| ==> Better(higher, s[index].value, s[k].value))
  }

  lemma CountAbove(s: seq<Obs>, higher: bool, index: nat, end: nat)
    requires TieGroup(s, higher, index, end)
    ensures Above(s, higher, s[index].value) == index
  {
    var v := s[index].value;
    var keep := (o: Obs) => Better(higher, o.value, v);
    assert s == s[..index] + s[index..];
    SelectionAppend(s[..index], s[index..], keep);
    AllSelected(s[..index], keep);
    NoneSelected(s[index..], keep);
  }

  lemma CountTies(s: seq<Obs>, higher: bool, index: nat, end: nat)
    requires TieGroup(s, higher, index, end)
    ensures Ties(s, s[index].value) == end - index
  {
    var v := s[index].value;
    var keep := (o: Obs) => o.value == v;
    assert s == (s[..index] + s[index..end]) + s[end..];
    SelectionAppend(s[..index] + s[index..end], s[end..], keep);
    SelectionAppend(s[..index], s[index..end], keep);
    NoneSelected(s[..index], keep);
    AllSelected(s[index..end], keep);
    NoneSelected(s[end..], keep);
  }

  /** Ranks count values, so they do not depend on the order of the list. */
  lemma RankOfPermutation(a: seq<Obs>, b: seq<Obs>, higher: bool, v: real)
    requires multiset(a) == multiset(b)
    ensures AverageRank(a, higher, v) == AverageRank(b, higher, v)
    ensures Percentile(a, higher, v) == Percentile(b, higher, v)
  {
    SelectionPermutation(a, b, (o: Obs) => Better(higher, o.value, v));
    SelectionPermutation(a, b, (o: Obs) => o.value == v);
    SameLength(Selection(a, (o: Obs) => Better(higher, o.value, v)),
               Selection(b, (o: Obs) => Better(higher, o.value, v)));
    SameLength(Selection(a, (o: Obs) => o.value == v), Selection(b, (o: Obs) => o.value == v));
    SameLength(a, b);
  }

  // ---------- The tie-group loop ----------

  /** The tables cover exactly the first n of the ordered values, each with its rank and score. */
  ghost predicate Filled(s: seq<Obs>, higher: bool, n: nat, scores: map<string, real>, ranks: map<string, real>) {
    && n <= |s|
    && (forall k :: 0 <= k < n ==> FilledAt(s, higher, s[k], scores, ranks))
    && scores.Keys == ranks.Keys == Ids(s[..n])
  }

  predicate FilledAt(s: seq<Obs>, higher: bool, o: Obs, scores: map<string, real>, ranks: map<string, real>) {
    && o.id in scores && o.id in ranks
    && ranks[o.id] == AverageRank(s, higher, o.value) && scores[o.id] == Percentile(s, higher, o.value)
  }

  lemma FilledOneMore(s: seq<Obs>, higher: bool, n: nat, scores: map<string, real>, ranks: map<string, real>)
    requires OneEach(s) && n < |s| && Filled(s, higher, n, scores, ranks)
    ensures Filled(s, higher, n + 1,
      scores[s[n].id := Percentile(s, higher, s[n].value)], ranks[s[n].id := AverageRank(s, higher, s[n].value)])
  {
    var percentile, rank := Percentile(s, higher, s[n].value), AverageRank(s, higher, s[n].value);
    IdsOneMore(s, n);
    KeysGrow(scores, s[n].id, percentile);
    KeysGrow(ranks, s[n].id, rank);
    forall k | 0 <= k < n + 1
      ensures FilledAt(s, higher, s[k], scores[s[n].id := percentile], ranks[s[n].id := rank])
    {
      if k < n { OthersStay(s, higher, k, n, scores, ranks, percentile, rank); }
    }
  }

  lemma IdsOneMore(s: seq<Obs>, n: nat)
    requires n < |s|
    ensures Ids(s[..n + 1]) == Ids(s[..n]) + {s[n].id}
  {
    assert s[..n + 1] == s[..n] + [s[n]];
  }

  lemma OthersStay(s: seq<Obs>, higher: bool, k: nat, n: nat, scores: map<string, real>, ranks: map<string, real>,
                   percentile: real, rank: real)
    requires OneEach(s) && k < n < |s| && FilledAt(s, higher, s[k], scores, ranks)
    ensures FilledAt(s, higher, s[k], scores[s[n].id := percentile], ranks[s[n].id := rank])
  {
    assert OtherId(s, k, n);
  }

  /** The scores of one tie group, written one by one. */
  method FillGroup(s: seq<Obs>, ghost higher: bool, index: nat, end: nat, percentile: real, averageRank: real,
                   scores: map<string, real>, ranks: map<string, real>)
    returns (scores': map<string, real>, ranks': map<string, real>)
    requires OneEach(s) && TieGroup(s, higher, index, end) && Filled(s, higher, index, scores, ranks)
    requires averageRank == AverageRank(s, higher, s[index].value)
    requires percentile == Percentile(s, higher, s[index].value)
    ensures Filled(s, higher, end, scores', ranks')
  {
    scores', ranks' := scores, ranks;
    for k := index to end
      invariant Filled(s, higher, k, scores', ranks')
    {
      FilledOneMore(s, higher, k, scores', ranks');
      assert s[k].value == s[index].value;
      scores' := scores'[s[k].id := percentile];
      ranks' := ranks'[s[k].id := averageRank];
    }
  }

  lemma GroupIsMaximal(s: seq<Obs>, higher: bool, index: nat, end: nat)
    requires InOrder(Order(higher), s) && index < end <= |s|
    requires forall k :: index <= k < end ==> s[k].value == s[index].value
    requires end < |s| ==> s[end].value != s[index].value
    requires index > 0 ==> s[index - 1].value != s[index].value
    ensures TieGroup(s, higher, index, end)
  {
    forall k | 0 <= k < index ensures Better(higher, s[k].value, s[index].value) {
      assert OrderedAt(Order(higher), s, index - 1, index);
      if k < index - 1 { assert OrderedAt(Order(higher), s, k, index - 1); }
    }
    forall k | end <= k < |s| ensures Better(higher, s[index].value, s[k].value) {
      assert OrderedAt(Order(higher), s, index, end);
      if end < k { assert OrderedAt(Order(higher), s, end, k); }
    }
  }

  lemma OrderIsLinear(higher: bool)
    ensures Linear(Order(higher))
  {
    forall x, y ensures Connected(Order(higher), x, y) { }
    forall x, y, z ensures Chains(Order(higher), x, y, z) { }
  }

  method GroupEnd(ordered: seq<Obs>, index: nat) returns (end: nat)
    requires index < |ordered|
    ensures index < end <= |ordered| && forall k :: index <= k < end ==> ordered[k].value == ordered[index].value
    ensures end < |ordered| ==> ordered[end].value != ordered[index].value
  {
    end := index + 1;
    while end < |ordered| && ordered[end].value == ordered[index].value
      invariant index < end <= |ordered|
      invariant forall k :: index <= k < end ==> ordered[k].value == ordered[index].value
    {
      end := end + 1;
    }
  }

  /** The places of a tie group have its rank as their mean. */
  lemma GroupRank(s: seq<Obs>, higher: bool, index: nat, end: nat)
    requires TieGroup(s, higher, index, end)
    ensures MeanPlace(index, end) == AverageRank(s, higher, s[index].value)
  {
    CountAbove(s, higher, index, end);
    CountTies(s, higher, index, end);
  }

  /** `while index < count`, over the sorted values. */
  method ScoreGroups(ordered: seq<Obs>, higher: bool) returns (scores: map<string, real>, ranks: map<string, real>)
    requires OneEach(ordered) && InOrder(Order(higher), ordered)
    ensures Filled(ordered, higher, |ordered|, scores, ranks)
  {
    var count := |ordered|;
    scores, ranks := map[], map[];
    var index := 0;
    while index < count
      invariant index <= count && Filled(ordered, higher, index, scores, ranks)
      invariant 0 < index < count ==> ordered[index - 1].value != ordered[index].value
    {
      var end := GroupEnd(ordered, index);
      var averageRank := MeanPlace(index, end);
      var percentile := ScoreOf(count, averageRank);
      GroupIsMaximal(ordered, higher, index, end);
      GroupRank(ordered, higher, index, end);
      scores, ranks := FillGroup(ordered, higher, index, end, percentile, averageRank, scores, ranks);
      index := end;
    }
  }

  /** `_percentile_scores`: every value gets its average rank and percentile among all the values observed. */
  method PercentileScores(observed: seq<Obs>, higher: bool)
    returns (scores: map<string, real>, ranks: map<string, real>)
    requires OneEach(observed)
    ensures scores.Keys == ranks.Keys == Ids(observed)
    ensures forall o :: o in observed ==> FilledAt(observed, higher, o, scores, ranks)
  {
    var ordered := SortBy(Order(higher), observed);
    OrderIsLinear(higher);
    SortByIsInOrder(Order(higher), observed);
    SameMembers(ordered, observed);
    OneEachSorted(observed, ordered);
    scores, ranks := ScoreGroups(ordered, higher);
    assert ordered[..|ordered|] == ordered;
    forall o | o in observed ensures FilledAt(observed, higher, o, scores, ranks) {
      var k :| 0 <= k < |ordered| && ordered[k] == o;
      assert FilledAt(ordered, higher, ordered[k], scores, ranks);
      RankOfPermutation(observed, ordered, higher, o.value);
    }
  }

  lemma OneEachSorted(s: seq<Obs>, t: seq<Obs>)
    requires OneEach(s) && multiset(s) == multiset(t)
    ensures OneEach(t)
  {
    var before, after := Mapped(OwnId, s), Mapped(OwnId, t);
    forall i, j | 0 <= i < j < |s| ensures Differ(before, i, j) { assert OtherId(s, i, j); }
    MappedPermutation(OwnId, s, t);
    forall x ensures multiset(after)[x] <= 1 { UniqueCount(before, x); }
    CountedUnique(after);
    forall i, j | 0 <= i < j < |t| ensures OtherId(t, i, j) { assert Differ(after, i, j); }
  }

  function OwnId(o: Obs): string {
    o.id
  }

  // ---------- Laws of ranks and scores ----------

  /** What y adds to the rank of v: a place when better, half a place when equal. */
  function Share(higher: bool, v: real, w: real): real {
    if Better(higher, w, v) then 1.0 else if w == v then 0.5 else 0.0
  }

  function Shares(s: seq<Obs>, higher: bool, v: real): real {
    if s == [] then 0.0 else Shares(s[..|s| - 1], higher, v) + Share(higher, v, s[|s| - 1].value)
  }

  lemma {:induction false} RankIsSumOfShares(s: seq<Obs>, higher: bool, v: real)
    ensures AverageRank(s, higher, v) == Shares(s, higher, v) + 0.5
  {
    if s != [] { RankIsSumOfShares(s[..|s| - 1], higher, v); }
  }

  /** The other direction takes the other share of every value. */
  lemma {:induction false} DirectionsShare(s: seq<Obs>, v: real)
    ensures Shares(s, true, v) + Shares(s, false, v) == |s| as real
  {
    if s != [] { DirectionsShare(s[..|s| - 1], v); }
  }

  /** Higher and lower scores of one entity sum to one hundred, unless it is the only one observed. */
  lemma DirectionsComplement(s: seq<Obs>, v: real)
    requires s != []
    ensures Percentile(s, true, v) + Percentile(s, false, v) == 100.0 <==> |s| >= 2
  {
    RankIsSumOfShares(s, true, v);
    RankIsSumOfShares(s, false, v);
    DirectionsShare(s, v);
    if |s| >= 2 {
      Complement(|s| as real, AverageRank(s, true, v), AverageRank(s, false, v));
    }
  }

  lemma Complement(n: real, a: real, b: real)
    requires n >= 2.0 && a + b == n + 1.0
    ensures 100.0 * (n - a) / (n - 1.0) + 100.0 * (n - b) / (n - 1.0) == 100.0
  {
    var d := n - 1.0;
    assert 100.0 * (n - a) + 100.0 * (n - b) == 100.0 * d;
    assert 100.0 * (n - a) / d + 100.0 * (n - b) / d == (100.0 * (n - a) + 100.0 * (n - b)) / d;
  }

  /** What z adds to the ranks of the values of s, together. */
  function SharesOf(s: seq<Obs>, higher: bool, z: real): real {
    if s == [] then 0.0 else SharesOf(s[..|s| - 1], higher, z) + Share(higher, s[|s| - 1].value, z)
  }

  function TotalShares(a: seq<Obs>, s: seq<Obs>, higher: bool): real {
    if a == [] then 0.0 else TotalShares(a[..|a| - 1], s, higher) + Shares(s, higher, a[|a| - 1].value)
  }

  function RankSum(a: seq<Obs>, s: seq<Obs>, higher: bool): real {
    if a == [] then 0.0 else RankSum(a[..|a| - 1], s, higher) + AverageRank(s, higher, a[|a| - 1].value)
  }

  lemma {:induction false} GivenAndTaken(s: seq<Obs>, higher: bool, z: real)
    ensures SharesOf(s, higher, z) + Shares(s, higher, z) == |s| as real
  {
    if s != [] { GivenAndTaken(s[..|s| - 1], higher, z); }
  }

  lemma {:induction false} TotalWithOneMore(a: seq<Obs>, s: seq<Obs>, z: Obs, higher: bool)
    ensures TotalShares(a, s + [z], higher) == TotalShares(a, s, higher) + SharesOf(a, higher, z.value)
  {
    if a != [] {
      TotalWithOneMore(a[..|a| - 1], s, z, higher);
      assert (s + [z])[..|s|] == s;
    }
  }

  lemma {:induction false} TotalIsHalfTheSquare(s: seq<Obs>, higher: bool)
    ensures TotalShares(s, s, higher) == |s| as real * |s| as real / 2.0
  {
    if s != [] {
      var front, z := s[..|s| - 1], s[|s| - 1];
      TotalIsHalfTheSquare(front, higher);
      assert s == front + [z];
      TotalWithOneMore(front, front, z, higher);
      GivenAndTaken(front, higher, z.value);
    }
  }

  lemma {:induction false} RankSumIsShares(a: seq<Obs>, s: seq<Obs>, higher: bool)
    ensures RankSum(a, s, higher) == TotalShares(a, s, higher) + |a| as real / 2.0
  {
    if a != [] {
      RankSumIsShares(a[..|a| - 1], s, higher);
      RankIsSumOfShares(s, higher, a[|a| - 1].value);
    }
  }

  /** However the values tie, the ranks of n values sum to n(n+1)/2. */
  lemma RanksSum(s: seq<Obs>, higher: bool)
    ensures RankSum(s, s, higher) == |s| as real * (|s| as real + 1.0) / 2.0
  {
    RankSumIsShares(s, s, higher);
    TotalIsHalfTheSquare(s, higher);
    var n := |s| as real;
    assert n * n / 2.0 + n / 2.0 == n * (n + 1.0) / 2.0;
  }

  lemma {:induction false} SharesBounded(s: seq<Obs>, higher: bool, v: real, o: Obs)
    requires o in s && o.value == v
    ensures 0.5 <= Shares(s, higher, v) <= |s| as real - 0.5
  {
    var front, last := s[..|s| - 1], s[|s| - 1];
    SharesInRange(front, higher, v);
    if last != o {
      assert o in front;
      SharesBounded(front, higher, v, o);
    }
  }

  lemma {:induction false} SharesInRange(s: seq<Obs>, higher: bool, v: real)
    ensures 0.0 <= Shares(s, higher, v) <= |s| as real
  {
    if s != [] { SharesInRange(s[..|s| - 1], higher, v); }
  }

  lemma PercentileInRange(s: seq<Obs>, higher: bool, o: Obs)
    requires o in s
    ensures 1.0 <= AverageRank(s, higher, o.value) <= |s| as real
    ensures 0.0 <= Percentile(s, higher, o.value) <= 100.0
  {
    SharesBounded(s, higher, o.value, o);
    RankIsSumOfShares(s, higher, o.value);
    if |s| > 1 {
      var d, x := |s| as real - 1.0, |s| as real - AverageRank(s, higher, o.value);
      Scaled(x, d);
    }
  }

  lemma Multiplied(a: real, b: real, d: real)
    requires a > b && d > 0.0
    ensures a * d > b * d
  {
  }

  lemma Scaled(x: real, d: real)
    requires 0.0 <= x <= d && d > 0.0
    ensures 0.0 <= 100.0 * x / d <= 100.0
  {
    var q := 100.0 * x / d;
    assert q * d == 100.0 * x <= 100.0 * d;
    if q > 100.0 { Multiplied(q, 100.0, d); }
    if q < 0.0 { Multiplied(0.0, q, d); }
  }

  lemma {:induction false} SharesMonotone(s: seq<Obs>, higher: bool, v: real, w: real)
    requires NoWorse(higher, v, w)
    ensures Shares(s, higher, v) <= Shares(s, higher, w)
  {
    if s != [] { SharesMonotone(s[..|s| - 1], higher, v, w); }
  }

  /** A value at least as good never scores lower. */
  lemma PercentileMonotone(s: seq<Obs>, higher: bool, v: real, w: real)
    requires NoWorse(higher, v, w)
    ensures Percentile(s, higher, v) >= Percentile(s, higher, w)
  {
    SharesMonotone(s, higher, v, w);
    RankIsSumOfShares(s, higher, v);
    RankIsSumOfShares(s, higher, w);
    if |s| > 1 {
      Larger(|s| as real - AverageRank(s, higher, v), |s| as real - AverageRank(s, higher, w), |s| as real - 1.0);
    }
  }

  lemma Larger(x: real, y: real, d: real)
    requires x >= y && d > 0.0
    ensures 100.0 * x / d >= 100.0 * y / d
  {
    assert 100.0 * x / d == (100.0 / d) * x && 100.0 * y / d == (100.0 / d) * y;
  }

  /** A best value without ties scores one hundred, even alone. */
  lemma BestScoresHundred(s: seq<Obs>, higher: bool, o: Obs)
    requires o in s && Ties(s, o.value) == 1 && forall p :: p in s ==> NoWorse(higher, o.value, p.value)
    ensures Percentile(s, higher, o.value) == 100.0
  {
    NoneSelected(s, (p: Obs) => Better(higher, p.value, o.value));
    assert AverageRank(s, higher, o.value) == 1.0;
    EndScores(|s|);
  }

  /** A worst value without ties, unless alone, scores nothing. */
  lemma WorstScoresNothing(s: seq<Obs>, higher: bool, o: Obs)
    requires o in s && Ties(s, o.value) == 1 && |s| > 1 && forall p :: p in s ==> NoWorse(higher, p.value, o.value)
    ensures Percentile(s, higher, o.value) == 0.0
  {
    AllButTies(s, higher, o.value);
    assert AverageRank(s, higher, o.value) == |s| as real;
    EndScores(|s|);
  }

  lemma EndScores(count: nat)
    ensures ScoreOf(count, 1.0) == 100.0
    ensures count > 1 ==> ScoreOf(count, count as real) == 0.0
  {
    if count > 1 {
      var d := count as real - 1.0;
      assert 100.0 * d / d == 100.0 && 100.0 * 0.0 / d == 0.0;
    }
  }

  lemma {:induction false} AllButTies(s: seq<Obs>, higher: bool, v: real)
    requires forall p :: p in s ==> NoWorse(higher, p.value, v)
    ensures Above(s, higher, v) + Ties(s, v) == |s|
  {
    if s != [] {
      assert s[|s| - 1] in s;
      AllButTies(s[..|s| - 1], higher, v);
    }
  }

  function PercentileSum(a: seq<Obs>, s: seq<Obs>, higher: bool): real {
    if a == [] then 0.0 else PercentileSum(a[..|a| - 1], s, higher) + Percentile(s, higher, a[|a| - 1].value)
  }

  /** Scores that sum to `sum`, for k ranks that sum to `ranks`. */
  predicate Balanced(sum: real, ranks: real, k: real, n: real) {
    sum * (n - 1.0) == 100.0 * (k * n - ranks)
  }

  lemma OneMoreScore(sum: real, ranks: real, k: real, rank: real, count: nat)
    requires count > 1 && Balanced(sum, ranks, k, count as real)
    ensures Balanced(sum + ScoreOf(count, rank), ranks + rank, k + 1.0, count as real)
  {
    var n := count as real;
    var d := n - 1.0;
    assert ScoreOf(count, rank) * d == 100.0 * (n - rank);
    assert (sum + ScoreOf(count, rank)) * d == sum * d + ScoreOf(count, rank) * d;
    assert (k + 1.0) * n == k * n + n;
  }

  lemma {:induction false} ScoresBalance(a: seq<Obs>, s: seq<Obs>, higher: bool)
    requires |s| > 1
    ensures Balanced(PercentileSum(a, s, higher), RankSum(a, s, higher), |a| as real, |s| as real)
  {
    if a != [] {
      var front, last := a[..|a| - 1], a[|a| - 1];
      ScoresBalance(front, s, higher);
      OneMoreScore(PercentileSum(front, s, higher), RankSum(front, s, higher), |front| as real,
                   AverageRank(s, higher, last.value), |s|);
    }
  }

  /** However the values tie, the scores of two values or more average fifty: what a neutral entity gets. */
  lemma ScoresAverageFifty(s: seq<Obs>, higher: bool)
    requires |s| > 1
    ensures PercentileSum(s, s, higher) == 50.0 * |s| as real
  {
    ScoresBalance(s, s, higher);
    RanksSum(s, higher);
    HalfOfAll(PercentileSum(s, s, higher), RankSum(s, s, higher), |s| as real);
  }

  lemma HalfOfAll(sum: real, ranks: real, n: real)
    requires n > 1.0 && Balanced(sum, ranks, n, n) && ranks == n * (n + 1.0) / 2.0
    ensures sum == 50.0 * n
  {
    var d := n - 1.0;
    assert n * n - ranks == n * d / 2.0;
    assert sum * d == (50.0 * n) * d;
    assert (sum - 50.0 * n) * d == 0.0;
  }

  // ---------- Rows, criteria and the composite ----------

  /** A missing metric is absent from `values`. */
  datatype Row = Row(id: string, values: map<string, real>)

  datatype Criterion = Criterion(metric: string, higher: bool, weight: real)

  datatype MissingPolicy = Exclude | Worst | Neutral

  function RowId(r: Row): string {
    r.id
  }

  function MetricOf(c: Criterion): string {
    c.metric
  }

  function Weights(cs: seq<Criterion>): real {
    if cs == [] then 0.0 else Weights(cs[..|cs| - 1]) + cs[|cs| - 1].weight
  }

  /** What the request's validation accepts. */
  predicate ValidRequest(rows: seq<Row>, cs: seq<Criterion>, topN: Option<int>) {
    && rows != [] && Unique(Mapped(RowId, rows)) && "" !in Mapped(RowId, rows)
    && cs != [] && Unique(Mapped(MetricOf, cs)) && "" !in Mapped(MetricOf, cs)
    && (forall c :: c in cs ==> c.weight >= 0.0) && Weights(cs) > 0.0
    && (topN.Some? ==> topN.value > 0)
  }

  predicate HasAll(r: Row, cs: seq<Criterion>) {
    forall c :: c in cs ==> c.metric in r.values
  }

  function Admits(cs: seq<Criterion>, policy: MissingPolicy): Row -> bool {
    (r: Row) => policy.Exclude? ==> HasAll(r, cs)
  }

  function EligibleRows(rows: seq<Row>, cs: seq<Criterion>, policy: MissingPolicy): seq<Row> {
    Selection(rows, Admits(cs, policy))
  }

  function HasMetric(metric: string): Row -> bool {
    (r: Row) => metric in r.values
  }

  function ObsOf(metric: string): Row -> Obs {
    (r: Row) => Obs(r.id, if metric in r.values then r.values[metric] else 0.0)
  }

  function Observed(rows: seq<Row>, metric: string): seq<Obs> {
    Mapped(ObsOf(metric), Selection(rows, HasMetric(metric)))
  }

  function MetricScore(rows: seq<Row>, c: Criterion, policy: MissingPolicy, r: Row): real {
    if c.metric in r.values then Percentile(Observed(rows, c.metric), c.higher, r.values[c.metric])
    else if policy.Worst? then 0.0 else 50.0
  }

  /** A neutral score is the mean of the scores observed, when there are two or more. */
  lemma NeutralIsTheMean(rows: seq<Row>, c: Criterion, r: Row)
    requires c.metric !in r.values && |Observed(rows, c.metric)| > 1
    ensures var observed := Observed(rows, c.metric);
      MetricScore(rows, c, Neutral, r) * |observed| as real == PercentileSum(observed, observed, c.higher)
  {
    ScoresAverageFifty(Observed(rows, c.metric), c.higher);
  }

  /** Under the "worst" policy a missing value scores what a worst observed value scores, if that is unique and not
      alone, and so never more than any value observed. */
  lemma MissingIsWorst(rows: seq<Row>, c: Criterion, r: Row, o: Obs)
    requires c.metric !in r.values && o in Observed(rows, c.metric) && |Observed(rows, c.metric)| > 1
    ensures var s := Observed(rows, c.metric);
      && MetricScore(rows, c, Worst, r) <= Percentile(s, c.higher, o.value)
      && (Ties(s, o.value) == 1 && (forall p :: p in s ==> NoWorse(c.higher, p.value, o.value)) ==>
          MetricScore(rows, c, Worst, r) == Percentile(s, c.higher, o.value))
  {
    var s := Observed(rows, c.metric);
    PercentileInRange(s, c.higher, o);
    if Ties(s, o.value) == 1 && forall p :: p in s ==> NoWorse(c.higher, p.value, o.value) {
      WorstScoresNothing(s, c.higher, o);
    }
  }

  function SumOver(f: Criterion -> real, cs: seq<Criterion>): real {
    if cs == [] then 0.0 else SumOver(f, cs[..|cs| - 1]) + f(cs[|cs| - 1])
  }

  lemma {:induction false} SumsGrow(f: Criterion -> real, g: Criterion -> real, cs: seq<Criterion>)
    requires forall c :: c in cs ==> f(c) <= g(c)
    ensures SumOver(f, cs) <= SumOver(g, cs)
  {
    if cs != [] { SumsGrow(f, g, cs[..|cs| - 1]); }
  }

  /** What a criterion contributes to a composite, when the score on it is `score`. */
  function PortionOf(score: Criterion -> real, total: real): Criterion -> real
    requires total > 0.0
  {
    (c: Criterion) => score(c) * (c.weight / total)
  }

  function ScoreFunction(rows: seq<Row>, policy: MissingPolicy, r: Row): Criterion -> real {
    (c: Criterion) => MetricScore(rows, c, policy, r)
  }

  function Constant(x: real): Criterion -> real {
    (c: Criterion) => x
  }

  /** The weighted sum over the first criteria; `total` is the sum of all weights. */
  function WeightedScore(rows: seq<Row>, cs: seq<Criterion>, policy: MissingPolicy, r: Row, total: real): real
    requires total > 0.0
  {
    SumOver(PortionOf(ScoreFunction(rows, policy, r), total), cs)
  }

  function Composite(rows: seq<Row>, cs: seq<Criterion>, policy: MissingPolicy, r: Row): real
    requires Weights(cs) > 0.0
  {
    WeightedScore(rows, cs, policy, r, Weights(cs))
  }

  lemma ObservedMember(rows: seq<Row>, metric: string, r: Row)
    requires r in rows && metric in r.values
    ensures Obs(r.id, r.values[metric]) in Observed(rows, metric)
  {
    SelectionMembers(rows, HasMetric(metric));
    var i :| 0 <= i < |Selection(rows, HasMetric(metric))| && Selection(rows, HasMetric(metric))[i] == r;
    assert Observed(rows, metric)[i] == Obs(r.id, r.values[metric]);
  }

  lemma MetricScoreInRange(rows: seq<Row>, c: Criterion, policy: MissingPolicy, r: Row)
    requires r in rows
    ensures 0.0 <= MetricScore(rows, c, policy, r) <= 100.0
  {
    if c.metric in r.values {
      ObservedMember(rows, c.metric, r);
      PercentileInRange(Observed(rows, c.metric), c.higher, Obs(r.id, r.values[c.metric]));
    }
  }

  lemma {:induction false} ConstantPortions(x: real, cs: seq<Criterion>, total: real)
    requires total > 0.0
    ensures SumOver(PortionOf(Constant(x), total), cs) == x * (Weights(cs) / total)
  {
    if cs == [] {
      assert 0.0 / total == 0.0;
    } else {
      ConstantPortions(x, cs[..|cs| - 1], total);
      SumOfPortions(x, Weights(cs[..|cs| - 1]), cs[|cs| - 1].weight, total);
    }
  }

  /** Better scores add up to a better sum. */
  lemma PortionsGrow(f: Criterion -> real, g: Criterion -> real, cs: seq<Criterion>, total: real)
    requires total > 0.0 && forall c :: c in cs ==> c.weight >= 0.0 && f(c) <= g(c)
    ensures SumOver(PortionOf(f, total), cs) <= SumOver(PortionOf(g, total), cs)
  {
    forall c | c in cs ensures PortionOf(f, total)(c) <= PortionOf(g, total)(c) {
      PortionGrows(g(c), f(c), c.weight, total);
    }
    SumsGrow(PortionOf(f, total), PortionOf(g, total), cs);
  }

  function Weighted(score: Criterion -> real): Criterion -> real {
    (c: Criterion) => c.weight * score(c)
  }

  lemma {:induction false} PortionsAreShares(score: Criterion -> real, cs: seq<Criterion>, total: real)
    requires total > 0.0
    ensures SumOver(PortionOf(score, total), cs) * total == SumOver(Weighted(score), cs)
  {
    if cs != [] {
      var front, c := cs[..|cs| - 1], cs[|cs| - 1];
      PortionsAreShares(score, front, total);
      OneMoreShare(SumOver(PortionOf(score, total), front), score(c), c.weight, total);
    }
  }

  lemma OneMoreShare(sum: real, score: real, weight: real, total: real)
    requires total > 0.0
    ensures (sum + score * (weight / total)) * total == sum * total + weight * score
  {
    Quotient(weight, total);
    var q := weight / total;
    assert (score * q) * total == score * (q * total);
  }

  /** A composite is the weighted mean of the scores. */
  lemma CompositeIsWeightedMean(rows: seq<Row>, cs: seq<Criterion>, policy: MissingPolicy, r: Row)
    requires Weights(cs) > 0.0
    ensures Composite(rows, cs, policy, r) * Weights(cs) == SumOver(Weighted(ScoreFunction(rows, policy, r)), cs)
  {
    PortionsAreShares(ScoreFunction(rows, policy, r), cs, Weights(cs));
  }

  lemma WeightedInRange(rows: seq<Row>, cs: seq<Criterion>, policy: MissingPolicy, r: Row, total: real)
    requires r in rows && total > 0.0 && forall c :: c in cs ==> c.weight >= 0.0
    ensures 0.0 <= WeightedScore(rows, cs, policy, r, total) <= 100.0 * (Weights(cs) / total)
  {
    var score := ScoreFunction(rows, policy, r);
    forall c | c in cs ensures Constant(0.0)(c) <= score(c) <= Constant(100.0)(c) {
      MetricScoreInRange(rows, c, policy, r);
    }
    PortionsGrow(Constant(0.0), score, cs, total);
    PortionsGrow(score, Constant(100.0), cs, total);
    ConstantPortions(0.0, cs, total);
    ConstantPortions(100.0, cs, total);
  }

  lemma SumOfPortions(x: real, a: real, b: real, total: real)
    requires total > 0.0
    ensures x * (a / total) + x * (b / total) == x * ((a + b) / total)
  {
    assert a / total + b / total == (a + b) / total;
  }

  lemma Whole(total: real)
    requires total > 0.0
    ensures 100.0 * (total / total) == 100.0
  {
  }

  /** Composite scores stay between zero and one hundred. */
  lemma CompositeInRange(rows: seq<Row>, cs: seq<Criterion>, policy: MissingPolicy, r: Row)
    requires r in rows && Weights(cs) > 0.0 && forall c :: c in cs ==> c.weight >= 0.0
    ensures 0.0 <= Composite(rows, cs, policy, r) <= 100.0
  {
    WeightedInRange(rows, cs, policy, r, Weights(cs));
    Whole(Weights(cs));
  }

  /** At least as good on a criterion: both observed and no worse, both missing, or the other one missing and
      scored worst. */
  predicate AtLeastAsGood(c: Criterion, policy: MissingPolicy, a: Row, b: Row) {
    if c.metric in a.values && c.metric in b.values then NoWorse(c.higher, a.values[c.metric], b.values[c.metric])
    else c.metric !in b.values && (c.metric !in a.values || policy.Worst?)
  }

  lemma MetricScoreMonotone(rows: seq<Row>, c: Criterion, policy: MissingPolicy, a: Row, b: Row)
    requires a in rows && AtLeastAsGood(c, policy, a, b)
    ensures MetricScore(rows, c, policy, a) >= MetricScore(rows, c, policy, b)
  {
    if c.metric in a.values && c.metric in b.values {
      PercentileMonotone(Observed(rows, c.metric), c.higher, a.values[c.metric], b.values[c.metric]);
    } else {
      MetricScoreInRange(rows, c, policy, a);
    }
  }

  lemma Growing(x: real, y: real, q: real)
    requires x >= y && q >= 0.0
    ensures x * q >= y * q
  {
    if x > y && q > 0.0 { Multiplied(x, y, q); }
  }

  lemma Quotient(weight: real, total: real)
    requires total > 0.0
    ensures (weight / total) * total == weight
  {
  }

  lemma ShareIsNotNegative(weight: real, total: real)
    requires weight >= 0.0 && total > 0.0
    ensures weight / total >= 0.0
  {
    var q := weight / total;
    Quotient(weight, total);
    if q < 0.0 { Multiplied(0.0, q, total); }
  }

  lemma PortionGrows(x: real, y: real, weight: real, total: real)
    requires x >= y && weight >= 0.0 && total > 0.0
    ensures x * (weight / total) >= y * (weight / total)
  {
    ShareIsNotNegative(weight, total);
    Growing(x, y, weight / total);
  }

  lemma WeightedMonotone(
      rows: seq<Row>, cs: seq<Criterion>, policy: MissingPolicy, a: Row, b: Row, total: real)
    requires a in rows && total > 0.0 && forall c :: c in cs ==> c.weight >= 0.0 && AtLeastAsGood(c, policy, a, b)
    ensures WeightedScore(rows, cs, policy, a, total) >= WeightedScore(rows, cs, policy, b, total)
  {
    var f, g := ScoreFunction(rows, policy, b), ScoreFunction(rows, policy, a);
    forall c | c in cs ensures f(c) <= g(c) { MetricScoreMonotone(rows, c, policy, a, b); }
    PortionsGrow(f, g, cs, total);
  }

  /** An entity at least as good on every criterion never scores lower. */
  lemma CompositeMonotone(rows: seq<Row>, cs: seq<Criterion>, policy: MissingPolicy, a: Row, b: Row)
    requires a in rows && Weights(cs) > 0.0
    requires forall c :: c in cs ==> c.weight >= 0.0 && AtLeastAsGood(c, policy, a, b)
    ensures Composite(rows, cs, policy, a) >= Composite(rows, cs, policy, b)
  {
    WeightedMonotone(rows, cs, policy, a, b, Weights(cs));
  }

  // ---------- The ranked list ----------

  datatype Ranked = Ranked(id: string, composite: real)

  /** `(-composite_score, id)`, on the rounded score. */
  predicate ListedBefore(a: Ranked, b: Ranked) {
    a.composite > b.composite || (a.composite == b.composite && AtMost([Text(a.id)], [Text(b.id)]))
  }

  function RankedOf(rows: seq<Row>, cs: seq<Criterion>, policy: MissingPolicy, rounded: real -> real): Row -> Ranked
    requires Weights(cs) > 0.0
  {
    (r: Row) => Ranked(r.id, rounded(Composite(rows, cs, policy, r)))
  }

  /** All eligible rows with their rounded composites, best first. */
  function RankedRows(rows: seq<Row>, cs: seq<Criterion>, policy: MissingPolicy, rounded: real -> real): seq<Ranked>
    requires Weights(cs) > 0.0
  {
    var eligible := EligibleRows(rows, cs, policy);
    SortBy(ListedBefore, Mapped(RankedOf(eligible, cs, policy, rounded), eligible))
  }

  lemma ListingIsLinear()
    ensures Linear(ListedBefore)
  {
    forall x, y ensures Connected(ListedBefore, x, y) { KeyOrder([Text(x.id)], [Text(y.id)]); }
    forall x, y, z ensures Chains(ListedBefore, x, y, z) {
      if ListedBefore(x, y) && ListedBefore(y, z) && x.composite == y.composite == z.composite {
        KeyChain([Text(x.id)], [Text(y.id)], [Text(z.id)]);
      }
    }
  }

  lemma ListingSeparates(s: seq<Ranked>)
    ensures Separates(ListedBefore, s)
  {
    forall x, y | x in s && y in s ensures Separated(ListedBefore, x, y) {
      if ListedBefore(x, y) && ListedBefore(y, x) {
        KeyOrder([Text(x.id)], [Text(y.id)]);
        assert [Text(x.id)][0] == [Text(y.id)][0];
        TextIsInjective(x.id, y.id);
      }
    }
  }

  // ---------- What the list says, without naming its order ----------

  /** The larger composite first, and on equal ones the smaller ID. */
  ghost predicate InPlace(a: Ranked, b: Ranked) {
    a.composite > b.composite || (a.composite == b.composite && TextOrder(a.id, b.id))
  }

  ghost predicate BestFirst(s: seq<Ranked>) {
    forall i, j :: 0 <= i < j < |s| ==> InPlace(s[i], s[j])
  }

  /** Left out for missing a metric. */
  ghost predicate LeftOut(r: Row, cs: seq<Criterion>, policy: MissingPolicy) {
    policy.Exclude? && exists c :: c in cs && c.metric !in r.values
  }

  ghost function Scored(
      r: Row, rows: seq<Row>, cs: seq<Criterion>, policy: MissingPolicy, rounded: real -> real): Ranked
    requires Weights(cs) > 0.0
  {
    Ranked(r.id, rounded(Composite(EligibleRows(rows, cs, policy), cs, policy, r)))
  }

  ghost predicate ScoresOf(
      x: Ranked, rows: seq<Row>, cs: seq<Criterion>, policy: MissingPolicy, rounded: real -> real)
    requires Weights(cs) > 0.0
  {
    exists r :: r in rows && !LeftOut(r, cs, policy) && x == Scored(r, rows, cs, policy, rounded)
  }

  lemma ListingIsInPlace(a: Ranked, b: Ranked)
    ensures ListedBefore(a, b) <==> InPlace(a, b)
  {
    KeyIsTextOrder(a.id, b.id);
  }

  lemma EligibleAreKept(rows: seq<Row>, cs: seq<Criterion>, policy: MissingPolicy, r: Row)
    ensures r in EligibleRows(rows, cs, policy) <==> r in rows && !LeftOut(r, cs, policy)
    ensures r in Selection(rows, Rejects(cs, policy)) <==> r in rows && LeftOut(r, cs, policy)
  {
    SelectionMembers(rows, Admits(cs, policy));
    SelectionMembers(rows, Rejects(cs, policy));
  }

  /** The list holds every row that is not left out under its rounded composite, and nothing else, best first. */
  lemma RankedRowsAreBestFirst(rows: seq<Row>, cs: seq<Criterion>, policy: MissingPolicy, rounded: real -> real)
    requires Weights(cs) > 0.0
    ensures BestFirst(RankedRows(rows, cs, policy, rounded))
    ensures forall x :: x in RankedRows(rows, cs, policy, rounded) <==> ScoresOf(x, rows, cs, policy, rounded)
  {
    var all, eligible := RankedRows(rows, cs, policy, rounded), EligibleRows(rows, cs, policy);
    var scored := Mapped(RankedOf(eligible, cs, policy, rounded), eligible);
    ListingIsLinear();
    SortByIsInOrder(ListedBefore, scored);
    forall i, j | 0 <= i < j < |all| ensures InPlace(all[i], all[j]) {
      assert OrderedAt(ListedBefore, all, i, j);
      ListingIsInPlace(all[i], all[j]);
    }
    SameMembers(all, scored);
    forall x ensures x in all <==> ScoresOf(x, rows, cs, policy, rounded) {
      ScoredMembers(x, rows, cs, policy, rounded);
    }
  }

  lemma ScoredMembers(x: Ranked, rows: seq<Row>, cs: seq<Criterion>, policy: MissingPolicy, rounded: real -> real)
    requires Weights(cs) > 0.0
    ensures var eligible := EligibleRows(rows, cs, policy);
      x in Mapped(RankedOf(eligible, cs, policy, rounded), eligible) <==> ScoresOf(x, rows, cs, policy, rounded)
  {
    var eligible := EligibleRows(rows, cs, policy);
    var scored := Mapped(RankedOf(eligible, cs, policy, rounded), eligible);
    if x in scored {
      var i :| 0 <= i < |eligible| && scored[i] == x;
      EligibleAreKept(rows, cs, policy, eligible[i]);
      assert x == Scored(eligible[i], rows, cs, policy, rounded);
    }
    if r :| r in rows && !LeftOut(r, cs, policy) && x == Scored(r, rows, cs, policy, rounded) {
      EligibleAreKept(rows, cs, policy, r);
      var i :| 0 <= i < |eligible| && eligible[i] == r;
      assert scored[i] == x;
    }
  }

  /** Every row is left out for a missing metric, returned, or no better than any row returned. */
  ghost predicate Placed(r: Row, rows: seq<Row>, cs: seq<Criterion>, policy: MissingPolicy, rounded: real -> real,
                         result: RankingResult)
    requires Weights(cs) > 0.0
  {
    var x := Scored(r, rows, cs, policy, rounded);
    && (r.id in result.excluded <==> LeftOut(r, cs, policy))
    && (LeftOut(r, cs, policy) || x in result.ranked || forall y :: y in result.ranked ==> InPlace(y, x))
  }

  lemma RowIsPlaced(r: Row, rows: seq<Row>, cs: seq<Criterion>, policy: MissingPolicy, rounded: real -> real,
                    result: RankingResult, n: nat)
    requires Weights(cs) > 0.0 && r in rows && Unique(Mapped(RowId, rows))
    requires n <= |RankedRows(rows, cs, policy, rounded)|
    requires result.ranked == RankedRows(rows, cs, policy, rounded)[..n]
    requires result.excluded == Mapped(RowId, Selection(rows, Rejects(cs, policy)))
    ensures Placed(r, rows, cs, policy, rounded, result)
  {
    var all := RankedRows(rows, cs, policy, rounded);
    ExcludedById(r, rows, cs, policy);
    if !LeftOut(r, cs, policy) {
      var x := Scored(r, rows, cs, policy, rounded);
      RankedRowsAreBestFirst(rows, cs, policy, rounded);
      assert ScoresOf(x, rows, cs, policy, rounded);
      var k :| 0 <= k < |all| && all[k] == x;
      if k < n {
        assert all[..n][k] == x;
      } else {
        forall y | y in all[..n] ensures InPlace(y, x) {
          var i :| 0 <= i < n && all[i] == y;
        }
      }
    }
  }

  lemma ExcludedById(r: Row, rows: seq<Row>, cs: seq<Criterion>, policy: MissingPolicy)
    requires r in rows && Unique(Mapped(RowId, rows))
    ensures r.id in Mapped(RowId, Selection(rows, Rejects(cs, policy))) <==> LeftOut(r, cs, policy)
  {
    var out := Selection(rows, Rejects(cs, policy));
    EligibleAreKept(rows, cs, policy, r);
    if r.id in Mapped(RowId, out) {
      var i :| 0 <= i < |out| && out[i].id == r.id;
      EligibleAreKept(rows, cs, policy, out[i]);
      var j :| 0 <= j < |rows| && rows[j] == out[i];
      var k :| 0 <= k < |rows| && rows[k] == r;
      SamePlace(Mapped(RowId, rows), j, k);
    }
    if LeftOut(r, cs, policy) {
      var i :| 0 <= i < |out| && out[i] == r;
      assert Mapped(RowId, out)[i] == r.id;
    }
  }

  lemma {:induction false} SplitCounts(rows: seq<Row>, cs: seq<Criterion>, policy: MissingPolicy)
    ensures |EligibleRows(rows, cs, policy)| + |Selection(rows, Rejects(cs, policy))| == |rows|
  {
    if rows != [] { SplitCounts(rows[..|rows| - 1], cs, policy); }
  }

  lemma ObservedOfPermutation(a: seq<Row>, b: seq<Row>, metric: string)
    requires multiset(a) == multiset(b)
    ensures multiset(Observed(a, metric)) == multiset(Observed(b, metric))
  {
    SelectionPermutation(a, b, HasMetric(metric));
    MappedPermutation(ObsOf(metric), Selection(a, HasMetric(metric)), Selection(b, HasMetric(metric)));
  }

  lemma MetricScoreOfPermutation(a: seq<Row>, b: seq<Row>, c: Criterion, policy: MissingPolicy, r: Row)
    requires multiset(a) == multiset(b)
    ensures MetricScore(a, c, policy, r) == MetricScore(b, c, policy, r)
  {
    ObservedOfPermutation(a, b, c.metric);
    if c.metric in r.values {
      RankOfPermutation(Observed(a, c.metric), Observed(b, c.metric), c.higher, r.values[c.metric]);
    }
  }

  lemma {:induction false} SamePortions(f: Criterion -> real, g: Criterion -> real, cs: seq<Criterion>, total: real)
    requires total > 0.0 && forall c :: c in cs ==> f(c) == g(c)
    ensures SumOver(PortionOf(f, total), cs) == SumOver(PortionOf(g, total), cs)
  {
    if cs != [] { SamePortions(f, g, cs[..|cs| - 1], total); }
  }

  lemma ScoreOfPermutation(
      a: seq<Row>, b: seq<Row>, cs: seq<Criterion>, policy: MissingPolicy, r: Row, total: real)
    requires multiset(a) == multiset(b) && total > 0.0
    ensures WeightedScore(a, cs, policy, r, total) == WeightedScore(b, cs, policy, r, total)
  {
    var f, g := ScoreFunction(a, policy, r), ScoreFunction(b, policy, r);
    forall c | c in cs ensures f(c) == g(c) { MetricScoreOfPermutation(a, b, c, policy, r); }
    SamePortions(f, g, cs, total);
  }

  lemma MappedAlike<T, U>(f: T -> U, g: T -> U, s: seq<T>)
    requires forall i :: 0 <= i < |s| ==> f(s[i]) == g(s[i])
    ensures Mapped(f, s) == Mapped(g, s)
  {
  }

  /** The ranked list ignores the order in which the rows were given. */
  lemma RankingIgnoresInputOrder(
      a: seq<Row>, b: seq<Row>, cs: seq<Criterion>, policy: MissingPolicy, rounded: real -> real)
    requires multiset(a) == multiset(b) && Weights(cs) > 0.0
    ensures RankedRows(a, cs, policy, rounded) == RankedRows(b, cs, policy, rounded)
  {
    var x, y := EligibleRows(a, cs, policy), EligibleRows(b, cs, policy);
    SelectionPermutation(a, b, Admits(cs, policy));
    var f, g := RankedOf(x, cs, policy, rounded), RankedOf(y, cs, policy, rounded);
    forall i | 0 <= i < |y| ensures f(y[i]) == g(y[i]) {
      ScoreOfPermutation(x, y, cs, policy, y[i], Weights(cs));
      assert Composite(x, cs, policy, y[i]) == Composite(y, cs, policy, y[i]);
    }
    MappedAlike(f, g, y);
    MappedPermutation(f, x, y);
    ListingIsLinear();
    ListingSeparates(Mapped(f, x));
    SortingIsCanonical(ListedBefore, Mapped(f, x), Mapped(g, y));
  }

  // ---------- The request ----------

  datatype RankingError = BadRequest

  datatype RankingResult = RankingResult(ranked: seq<Ranked>, excluded: seq<string>, eligible: nat)

  lemma ObservedOnce(rows: seq<Row>, metric: string)
    requires Unique(Mapped(RowId, rows))
    ensures OneEach(Observed(rows, metric))
  {
    SelectedIdsUnique(rows, HasMetric(metric));
    var s := Selection(rows, HasMetric(metric));
    forall i, j | 0 <= i < j < |s| ensures OtherId(Observed(rows, metric), i, j) {
      assert Differ(Mapped(RowId, s), i, j);
    }
  }

  lemma {:induction false} SelectedIdsUnique(rows: seq<Row>, keep: Row -> bool)
    requires Unique(Mapped(RowId, rows))
    ensures Unique(Mapped(RowId, Selection(rows, keep)))
    ensures forall x :: x in Mapped(RowId, Selection(rows, keep)) ==> x in Mapped(RowId, rows)
  {
    if rows != [] {
      var front, last := rows[..|rows| - 1], rows[|rows| - 1];
      assert Mapped(RowId, front) == Mapped(RowId, rows)[..|front|];
      UniquePrefix(Mapped(RowId, rows), |front|);
      SelectedIdsUnique(front, keep);
      var s := Selection(front, keep);
      if keep(last) {
        assert Mapped(RowId, s + [last]) == Mapped(RowId, s) + [last.id];
        UniqueAppend(Mapped(RowId, s), last.id);
      } else {
        assert Selection(rows, keep) == s;
      }
      assert Mapped(RowId, rows) == Mapped(RowId, front) + [last.id];
    }
  }

  predicate ScoredAt(rows: seq<Row>, c: Criterion, policy: MissingPolicy, scores: map<string, real>, r: Row) {
    r.id in scores && scores[r.id] == MetricScore(rows, c, policy, r)
  }

  /** `observed`: the rows that have the metric. */
  method ObserveMetric(rows: seq<Row>, metric: string) returns (observed: seq<Obs>)
    ensures observed == Observed(rows, metric)
  {
    observed := [];
    for i := 0 to |rows|
      invariant observed == Observed(rows[..i], metric)
    {
      assert rows[..i + 1] == rows[..i] + [rows[i]] && rows[..i + 1][..i] == rows[..i];
      if metric in rows[i].values {
        observed := observed + [Obs(rows[i].id, rows[i].values[metric])];
      } else {
        assert Selection(rows[..i + 1], HasMetric(metric)) == Selection(rows[..i], HasMetric(metric));
      }
    }
    assert rows[..|rows|] == rows;
  }

  /** One turn of `for criterion in criteria`: the criterion's score for every eligible row. */
  method CriterionScores(rows: seq<Row>, c: Criterion, policy: MissingPolicy) returns (scores: map<string, real>)
    requires Unique(Mapped(RowId, rows))
    ensures forall r :: r in rows ==> ScoredAt(rows, c, policy, scores, r)
  {
    var observed := ObserveMetric(rows, c.metric);
    ObservedOnce(rows, c.metric);
    var metricScores, ranks := PercentileScores(observed, c.higher);
    scores := map[];
    for i := 0 to |rows|
      invariant ScoredUpTo(rows, c, policy, scores, i)
    {
      var score := if policy.Worst? then 0.0 else 50.0;
      if c.metric in rows[i].values {
        ObservedScore(rows, c, policy, metricScores, ranks, rows[i]);
        score := metricScores[rows[i].id];
      }
      ScoredOneMore(rows, c, policy, scores, i);
      scores := scores[rows[i].id := score];
    }
    forall r | r in rows ensures ScoredAt(rows, c, policy, scores, r) {
      var k :| 0 <= k < |rows| && rows[k] == r;
    }
  }

  predicate ScoredUpTo(rows: seq<Row>, c: Criterion, policy: MissingPolicy, scores: map<string, real>, n: nat) {
    n <= |rows| && forall k :: 0 <= k < n ==> ScoredAt(rows, c, policy, scores, rows[k])
  }

  lemma ObservedScore(
      rows: seq<Row>, c: Criterion, policy: MissingPolicy, scores: map<string, real>, ranks: map<string, real>, r: Row)
    requires forall o :: o in Observed(rows, c.metric) ==>
      FilledAt(Observed(rows, c.metric), c.higher, o, scores, ranks)
    requires r in rows && c.metric in r.values
    ensures r.id in scores && scores[r.id] == MetricScore(rows, c, policy, r)
  {
    ObservedMember(rows, c.metric, r);
  }

  lemma ScoredOneMore(rows: seq<Row>, c: Criterion, policy: MissingPolicy, scores: map<string, real>, n: nat)
    requires Unique(Mapped(RowId, rows)) && n < |rows| && ScoredUpTo(rows, c, policy, scores, n)
    ensures ScoredUpTo(rows, c, policy, scores[rows[n].id := MetricScore(rows, c, policy, rows[n])], n + 1)
  {
    var scores' := scores[rows[n].id := MetricScore(rows, c, policy, rows[n])];
    forall k | 0 <= k < n + 1 ensures ScoredAt(rows, c, policy, scores', rows[k]) {
      if k < n { assert Differ(Mapped(RowId, rows), k, n) && ScoredAt(rows, c, policy, scores, rows[k]); }
    }
  }

  predicate SummedAt(
      rows: seq<Row>, cs: seq<Criterion>, policy: MissingPolicy, total: real, sums: map<string, real>, r: Row)
    requires total > 0.0
  {
    r.id in sums && sums[r.id] == WeightedScore(rows, cs, policy, r, total)
  }

  /** Every row's sum after one more criterion. */
  function WithPortion(sums: map<string, real>, scores: map<string, real>, share: real): map<string, real> {
    map id | id in sums && id in scores :: sums[id] + scores[id] * share
  }

  lemma SumGrows(rows: seq<Row>, cs: seq<Criterion>, policy: MissingPolicy, total: real,
                 sums: map<string, real>, scores: map<string, real>, r: Row)
    requires total > 0.0 && cs != [] && SummedAt(rows, cs[..|cs| - 1], policy, total, sums, r)
    requires ScoredAt(rows, cs[|cs| - 1], policy, scores, r)
    ensures SummedAt(rows, cs, policy, total, WithPortion(sums, scores, cs[|cs| - 1].weight / total), r)
  {
  }

  /** The composite of every eligible row, built up criterion by criterion. */
  method Composites(rows: seq<Row>, cs: seq<Criterion>, policy: MissingPolicy) returns (sums: map<string, real>)
    requires Unique(Mapped(RowId, rows)) && Weights(cs) > 0.0
    ensures forall r :: r in rows ==> SummedAt(rows, cs, policy, Weights(cs), sums, r)
  {
    var total := Weights(cs);
    sums := map r | r in rows :: r.id := 0.0;
    for k := 0 to |cs|
      invariant forall r :: r in rows ==> SummedAt(rows, cs[..k], policy, total, sums, r)
    {
      var scores := CriterionScores(rows, cs[k], policy);
      var next := WithPortion(sums, scores, cs[k].weight / total);
      forall r | r in rows ensures SummedAt(rows, cs[..k + 1], policy, total, next, r) {
        assert cs[..k + 1][..k] == cs[..k] && cs[..k + 1][k] == cs[k];
        SumGrows(rows, cs[..k + 1], policy, total, sums, scores, r);
      }
      sums := next;
    }
    assert cs[..|cs|] == cs;
  }

  function Rejects(cs: seq<Criterion>, policy: MissingPolicy): Row -> bool {
    (r: Row) => !Admits(cs, policy)(r)
  }

  /** `eligible` and `excluded` */
  method SplitRows(rows: seq<Row>, cs: seq<Criterion>, policy: MissingPolicy)
    returns (eligible: seq<Row>, excluded: seq<string>)
    ensures eligible == EligibleRows(rows, cs, policy)
    ensures excluded == Mapped(RowId, Selection(rows, Rejects(cs, policy)))
  {
    eligible, excluded := [], [];
    for i := 0 to |rows|
      invariant eligible == EligibleRows(rows[..i], cs, policy)
      invariant excluded == Mapped(RowId, Selection(rows[..i], Rejects(cs, policy)))
    {
      assert rows[..i + 1][..i] == rows[..i];
      if policy.Exclude? && !HasAll(rows[i], cs) {
        MappedAppend(RowId, Selection(rows[..i], Rejects(cs, policy)), [rows[i]]);
        assert EligibleRows(rows[..i + 1], cs, policy) == EligibleRows(rows[..i], cs, policy);
        excluded := excluded + [rows[i].id];
      } else {
        assert Selection(rows[..i + 1], Rejects(cs, policy)) == Selection(rows[..i], Rejects(cs, policy));
        eligible := eligible + [rows[i]];
      }
    }
    assert rows[..|rows|] == rows;
  }

  method RankAll(eligible: seq<Row>, cs: seq<Criterion>, policy: MissingPolicy, rounded: real -> real)
    returns (ranked: seq<Ranked>)
    requires Unique(Mapped(RowId, eligible)) && Weights(cs) > 0.0
    ensures ranked == SortBy(ListedBefore, Mapped(RankedOf(eligible, cs, policy, rounded), eligible))
  {
    var composites := Composites(eligible, cs, policy);
    ranked := [];
    for i := 0 to |eligible|
      invariant ranked == Mapped(RankedOf(eligible, cs, policy, rounded), eligible[..i])
    {
      assert eligible[..i + 1] == eligible[..i] + [eligible[i]];
      MappedAppend(RankedOf(eligible, cs, policy, rounded), eligible[..i], [eligible[i]]);
      assert Composite(eligible, cs, policy, eligible[i]) ==
        WeightedScore(eligible, cs, policy, eligible[i], Weights(cs));
      assert SummedAt(eligible, cs, policy, Weights(cs), composites, eligible[i]);
      ranked := ranked + [Ranked(eligible[i].id, rounded(composites[eligible[i].id]))];
    }
    assert eligible[..|eligible|] == eligible;
    ranked := SortBy(ListedBefore, ranked);
  }

  function Returned(topN: Option<int>, count: nat): nat
    requires topN.Some? ==> topN.value > 0
  {
    if topN.Some? && topN.value < count then topN.value else count
  }

  /** `rank_entities`: the first of the ranked list, and the rows left out for missing a metric. */
  method RankEntities(
      rows: seq<Row>, cs: seq<Criterion>, policy: MissingPolicy, topN: Option<int>, rounded: real -> real)
    returns (r: Result<RankingResult, RankingError>)
    ensures r.Ok? <==> ValidRequest(rows, cs, topN)
    ensures r.Ok? ==> var all := RankedRows(rows, cs, policy, rounded);
      && r.value.ranked == all[..Returned(topN, |all|)] && r.value.eligible == |all|
      && r.value.excluded == Mapped(RowId, Selection(rows, Rejects(cs, policy)))
    ensures r.Ok? ==> BestFirst(r.value.ranked)
    ensures r.Ok? ==> forall x :: x in r.value.ranked ==> ScoresOf(x, rows, cs, policy, rounded)
    ensures r.Ok? ==> forall row :: row in rows ==> Placed(row, rows, cs, policy, rounded, r.value)
    ensures r.Ok? ==> r.value.eligible + |r.value.excluded| == |rows|
    ensures r.Ok? ==>
      |r.value.ranked| == if topN.Some? then Least(topN.value, r.value.eligible) else r.value.eligible
  {
    if !ValidRequest(rows, cs, topN) { return Err(BadRequest); }
    var eligible, excluded := SplitRows(rows, cs, policy);
    SelectedIdsUnique(rows, Admits(cs, policy));
    var ranked := RankAll(eligible, cs, policy, rounded);
    r := Ok(RankingResult(ranked[..Returned(topN, |ranked|)], excluded, |ranked|));
    RankedRowsAreBestFirst(rows, cs, policy, rounded);
    SplitCounts(rows, cs, policy);
    forall row | row in rows ensures Placed(row, rows, cs, policy, rounded, r.value) {
      RowIsPlaced(row, rows, cs, policy, rounded, r.value, |r.value.ranked|);
    }
  }
}
