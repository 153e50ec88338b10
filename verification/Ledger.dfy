/** The collision-safe observation ledger (data/ledger.py): atomic and idempotent ingestion, index maps that agree with
    the stored observations, and evidence packets that hold exactly what they reference. */
module Ledger {
  import opened Common
  import opened Sorting

  datatype PeriodKind = Duration | Instant

  datatype Period = Period(
    kind: PeriodKind, end: int, start: Option<int>, fiscalYear: Option<int>, fiscalPeriod: Option<string>)

  datatype MeasureUnit = MeasureUnit(kind: string, symbol: string, scale: int)

  /** `rest` stands for the ticker and the metadata. */
  datatype Observation = Observation(
    id: string, entity: string, name: string, value: real, unit: MeasureUnit, period: Period,
    evidence: seq<string>, rest: string)

  datatype Evidence = Evidence(id: string, record: string)

  datatype Issue = Issue(code: string, path: string, message: string)

  datatype Batch = Batch(observations: seq<Observation>, evidence: seq<Evidence>, issues: seq<Issue>)

  function EvidenceIds(s: seq<Evidence>): (r: seq<string>)
    ensures |r| == |s| && forall i :: 0 <= i < |s| ==> r[i] == s[i].id
  {
    seq(|s|, i requires 0 <= i < |s| => s[i].id)
  }

  function ObservationIds(s: seq<Observation>): (r: seq<string>)
    ensures |r| == |s| && forall i :: 0 <= i < |s| ==> r[i] == s[i].id
  {
    seq(|s|, i requires 0 <= i < |s| => s[i].id)
  }

  /** What the batch constructor has checked. */
  predicate ValidBatch(b: Batch) {
    && Unique(ObservationIds(b.observations)) && Unique(EvidenceIds(b.evidence))
    && forall o, e :: o in b.observations && e in o.evidence ==> e in EvidenceIds(b.evidence)
  }

  // ---------- Sort keys ----------

  function KindName(k: PeriodKind): string {
    if k.Duration? then "duration" else "instant"
  }

  /** A missing value, read as the given one. */
  function OrDefault(x: Option<int>, default: int): int {
    if x.Some? then x.value else default
  }

  function TextOf(x: Option<string>): string {
    if x.Some? then x.value else ""
  }

  /** `_observation_sort_key`; dates are day numbers, and a missing start sorts as the first day there is. */
  function ObservationKey(o: Observation): Key {
    var p, u := o.period, o.unit;
    [Text(o.entity), Text(o.name),
     [p.end], [OrDefault(p.start, 1)], Text(KindName(p.kind)),
     [OrDefault(p.fiscalYear, -1)], Text(TextOf(p.fiscalPeriod)),
     Text(u.kind), Text(u.symbol), [u.scale], Text(o.id)]
  }

  function ObservationOrder(): (Observation, Observation) -> bool {
    ByKey(ObservationKey)
  }

  /** The order of records, field by field and without sort keys: by entity, name, end, start (a missing one first),
      kind, fiscal year and period (missing ones first), unit and at last ID. */
  ghost predicate Earlier(a: Observation, b: Observation) {
    var p, q, u, v := a.period, b.period, a.unit, b.unit;
    if a.entity != b.entity then TextOrder(a.entity, b.entity)
    else if a.name != b.name then TextOrder(a.name, b.name)
    else if p.end != q.end then p.end < q.end
    else if OrDefault(p.start, 1) != OrDefault(q.start, 1) then OrDefault(p.start, 1) < OrDefault(q.start, 1)
    else if p.kind != q.kind then p.kind.Duration?
    else if OrDefault(p.fiscalYear, -1) != OrDefault(q.fiscalYear, -1) then
      OrDefault(p.fiscalYear, -1) < OrDefault(q.fiscalYear, -1)
    else if TextOf(p.fiscalPeriod) != TextOf(q.fiscalPeriod) then
      TextOrder(TextOf(p.fiscalPeriod), TextOf(q.fiscalPeriod))
    else if u.kind != v.kind then TextOrder(u.kind, v.kind)
    else if u.symbol != v.symbol then TextOrder(u.symbol, v.symbol)
    else if u.scale != v.scale then u.scale < v.scale
    else TextOrder(a.id, b.id)
  }

  lemma TextDiffers(a: string, b: string)
    ensures Text(a) == Text(b) <==> a == b
    ensures CompareField(Text(a), Text(b)) <= 0 <==> TextOrder(a, b)
  {
    if Text(a) == Text(b) { TextIsInjective(a, b); }
    FieldIsTextOrder(a, b);
  }

  lemma KindsCompare(a: PeriodKind, b: PeriodKind)
    requires a != b
    ensures Text(KindName(a)) != Text(KindName(b))
    ensures CompareField(Text(KindName(a)), Text(KindName(b))) <= 0 <==> a.Duration?
  {
    assert Text(KindName(a))[0] != Text(KindName(b))[0];
  }

  lemma NumbersDiffer(x: int, y: int)
    ensures [x] == [y] <==> x == y
  {
    assert [x] == [y] ==> [x][0] == [y][0];
  }

  /** The first half of the key. */
  predicate HeadFields(o: Observation, k: Key) {
    && |k| == 11 && k[0] == Text(o.entity) && k[1] == Text(o.name) && k[2] == [o.period.end]
    && k[3] == [OrDefault(o.period.start, 1)] && k[4] == Text(KindName(o.period.kind))
    && k[5] == [OrDefault(o.period.fiscalYear, -1)]
  }

  predicate TailFields(o: Observation, k: Key) {
    && |k| == 11 && k[6] == Text(TextOf(o.period.fiscalPeriod)) && k[7] == Text(o.unit.kind)
    && k[8] == Text(o.unit.symbol) && k[9] == [o.unit.scale] && k[10] == Text(o.id)
  }

  lemma KeyFields(o: Observation)
    ensures HeadFields(o, ObservationKey(o)) && TailFields(o, ObservationKey(o))
  {
  }

  lemma HeadsDiffer(a: Observation, b: Observation, x: Key, y: Key)
    requires HeadFields(a, x) && HeadFields(b, y)
    ensures (a.entity == b.entity <==> x[0] == y[0]) && (a.name == b.name <==> x[1] == y[1])
    ensures a.period.end == b.period.end <==> x[2] == y[2]
    ensures OrDefault(a.period.start, 1) == OrDefault(b.period.start, 1) <==> x[3] == y[3]
    ensures a.period.kind == b.period.kind <==> x[4] == y[4]
    ensures OrDefault(a.period.fiscalYear, -1) == OrDefault(b.period.fiscalYear, -1) <==> x[5] == y[5]
  {
    TextDiffers(a.entity, b.entity);
    TextDiffers(a.name, b.name);
    NumbersDiffer(a.period.end, b.period.end);
    NumbersDiffer(OrDefault(a.period.start, 1), OrDefault(b.period.start, 1));
    if a.period.kind != b.period.kind { KindsCompare(a.period.kind, b.period.kind); }
    NumbersDiffer(OrDefault(a.period.fiscalYear, -1), OrDefault(b.period.fiscalYear, -1));
  }

  lemma TailsDiffer(a: Observation, b: Observation, x: Key, y: Key)
    requires TailFields(a, x) && TailFields(b, y)
    ensures TextOf(a.period.fiscalPeriod) == TextOf(b.period.fiscalPeriod) <==> x[6] == y[6]
    ensures (a.unit.kind == b.unit.kind <==> x[7] == y[7]) && (a.unit.symbol == b.unit.symbol <==> x[8] == y[8])
    ensures (a.unit.scale == b.unit.scale <==> x[9] == y[9]) && (a.id == b.id <==> x[10] == y[10])
  {
    TextDiffers(TextOf(a.period.fiscalPeriod), TextOf(b.period.fiscalPeriod));
    TextDiffers(a.unit.kind, b.unit.kind);
    TextDiffers(a.unit.symbol, b.unit.symbol);
    NumbersDiffer(a.unit.scale, b.unit.scale);
    TextDiffers(a.id, b.id);
  }

  /** Where two records first differ, as the order reads them. */
  function FirstField(a: Observation, b: Observation): nat {
    var p, q, u, v := a.period, b.period, a.unit, b.unit;
    if a.entity != b.entity then 0
    else if a.name != b.name then 1
    else if p.end != q.end then 2
    else if OrDefault(p.start, 1) != OrDefault(q.start, 1) then 3
    else if p.kind != q.kind then 4
    else if OrDefault(p.fiscalYear, -1) != OrDefault(q.fiscalYear, -1) then 5
    else if TextOf(p.fiscalPeriod) != TextOf(q.fiscalPeriod) then 6
    else if u.kind != v.kind then 7
    else if u.symbol != v.symbol then 8
    else if u.scale != v.scale then 9
    else 10
  }

  lemma FirstFieldDecides(a: Observation, b: Observation, x: Key, y: Key)
    requires HeadFields(a, x) && HeadFields(b, y) && TailFields(a, x) && TailFields(b, y)
    ensures x != y ==> DecidesAt(x, y, FirstField(a, b))
    ensures x == y ==> FirstField(a, b) == 10
  {
    HeadsDiffer(a, b, x, y);
    TailsDiffer(a, b, x, y);
    forall k | 0 <= k < FirstField(a, b) ensures x[k] == y[k] { }
    if x[FirstField(a, b)] == y[FirstField(a, b)] { assert forall k :: 0 <= k < 11 ==> x[k] == y[k]; }
  }

  lemma HeadsCompare(a: Observation, b: Observation, x: Key, y: Key)
    requires HeadFields(a, x) && HeadFields(b, y) && FirstField(a, b) < 6
    ensures CompareField(x[FirstField(a, b)], y[FirstField(a, b)]) <= 0 <==> Earlier(a, b)
  {
    var p, q := a.period, b.period;
    match FirstField(a, b) {
      case 0 => TextDiffers(a.entity, b.entity);
      case 1 => TextDiffers(a.name, b.name);
      case 2 => NumbersCompare(p.end, q.end);
      case 3 => NumbersCompare(OrDefault(p.start, 1), OrDefault(q.start, 1));
      case 4 => KindsCompare(p.kind, q.kind);
      case _ => NumbersCompare(OrDefault(p.fiscalYear, -1), OrDefault(q.fiscalYear, -1));
    }
  }

  lemma TailsCompare(a: Observation, b: Observation, x: Key, y: Key)
    requires TailFields(a, x) && TailFields(b, y) && FirstField(a, b) >= 6
    ensures CompareField(x[FirstField(a, b)], y[FirstField(a, b)]) <= 0 <==> Earlier(a, b)
  {
    match FirstField(a, b) {
      case 6 => TextDiffers(TextOf(a.period.fiscalPeriod), TextOf(b.period.fiscalPeriod));
      case 7 => TextDiffers(a.unit.kind, b.unit.kind);
      case 8 => TextDiffers(a.unit.symbol, b.unit.symbol);
      case 9 => NumbersCompare(a.unit.scale, b.unit.scale);
      case _ => TextDiffers(a.id, b.id);
    }
  }

  /** The sort key orders records so. */
  lemma OrderReads(a: Observation, b: Observation)
    ensures ObservationOrder()(a, b) <==> Earlier(a, b)
  {
    var x, y, k := ObservationKey(a), ObservationKey(b), FirstField(a, b);
    KeyFields(a);
    KeyFields(b);
    FirstFieldDecides(a, b, x, y);
    if k < 6 { HeadsCompare(a, b, x, y); } else { TailsCompare(a, b, x, y); }
    if x == y {
      KeyOrder(x, y);
      FieldOrder(x[k], y[k]);
      assert AtMost(x, y) && Earlier(a, b);
    } else {
      FirstDifferenceDecides(x, y, k);
    }
  }

  ghost predicate EarlierFirst(s: seq<Observation>) {
    forall i, j :: 0 <= i < j < |s| ==> Earlier(s[i], s[j])
  }

  lemma SortedIsEarlierFirst(s: seq<Observation>)
    requires InOrder(ObservationOrder(), s)
    ensures EarlierFirst(s)
  {
    forall i, j | 0 <= i < j < |s| ensures Earlier(s[i], s[j]) {
      assert OrderedAt(ObservationOrder(), s, i, j);
      OrderReads(s[i], s[j]);
    }
  }

  ghost predicate SmallerIdFirst(s: seq<Evidence>) {
    forall i, j :: 0 <= i < j < |s| ==> TextOrder(s[i].id, s[j].id)
  }

  lemma SortedIsSmallerIdFirst(s: seq<Evidence>)
    requires InOrder(EvidenceOrder(), s)
    ensures SmallerIdFirst(s)
  {
    forall i, j | 0 <= i < j < |s| ensures TextOrder(s[i].id, s[j].id) {
      assert OrderedAt(EvidenceOrder(), s, i, j);
      KeyIsTextOrder(s[i].id, s[j].id);
    }
  }

  function EvidenceOrder(): (Evidence, Evidence) -> bool {
    ByKey((e: Evidence) => [Text(e.id)])
  }

  function IdOrder(): (string, string) -> bool {
    ByKey((id: string) => [Text(id)])
  }

  function ById(): (Observation, Observation) -> bool {
    ByKey((o: Observation) => [Text(o.id)])
  }

  // ---------- The stored tables ----------

  type NameKey = (string, string)
  type PeriodKey = (string, string, Period)

  datatype Store = Store(
    observations: map<string, Observation>,
    evidence: map<string, Evidence>,
    issues: set<Issue>,
    byName: map<NameKey, set<string>>,
    byPeriod: map<PeriodKey, set<string>>)

  function EmptyStore(): Store {
    Store(map[], map[], {}, map[], map[])
  }

  function NameKeyOf(): Observation -> NameKey {
    (o: Observation) => (o.entity, o.name)
  }

  function PeriodKeyOf(): Observation -> PeriodKey {
    (o: Observation) => (o.entity, o.name, o.period)
  }

  /** `index.get(key, set())` */
  function Lookup<K(==)>(index: map<K, set<string>>, key: K): set<string> {
    if key in index then index[key] else {}
  }

  /** `index.setdefault(key, set()).add(id)` */
  function AddTo<K(==)>(index: map<K, set<string>>, key: K, id: string): map<K, set<string>> {
    index[key := Lookup(index, key) + {id}]
  }

  predicate IndexedAt<K(==)>(
      index: map<K, set<string>>, stored: map<string, Observation>, keyOf: Observation -> K, key: K, id: string)
  {
    id in Lookup(index, key) <==> id in stored && keyOf(stored[id]) == key
  }

  /** An index lists under each key exactly the stored observations with that key. */
  ghost predicate Exact<K(!new)>(
      index: map<K, set<string>>, stored: map<string, Observation>, keyOf: Observation -> K)
  {
    && (forall key, id :: IndexedAt(index, stored, keyOf, key, id))
    && (forall key :: key in index ==> index[key] != {})
  }

  ghost predicate Sound(s: Store) {
    && (forall id :: id in s.observations ==> s.observations[id].id == id)
    && (forall id :: id in s.evidence ==> s.evidence[id].id == id)
    && (forall id :: id in s.observations ==> Resolved(s, s.observations[id]))
    && Exact(s.byName, s.observations, NameKeyOf())
    && Exact(s.byPeriod, s.observations, PeriodKeyOf())
  }

  predicate Resolved(s: Store, o: Observation) {
    forall e :: e in o.evidence ==> e in s.evidence
  }

  // ---------- Ingestion ----------

  datatype Clash = EvidenceClash(id: string) | ObservationClash(id: string)

  predicate ClashesEvidence(s: Store, e: Evidence) {
    e.id in s.evidence && s.evidence[e.id] != e
  }

  predicate ClashesObservation(s: Store, o: Observation) {
    o.id in s.observations && s.observations[o.id] != o
  }

  function FirstWhere<T>(s: seq<T>, p: T -> bool): (r: Option<T>)
    ensures r.None? <==> forall x :: x in s ==> !p(x)
    ensures r.Some? ==> r.value in s && p(r.value)
  {
    if s == [] then None else if p(s[0]) then Some(s[0]) else FirstWhere(s[1..], p)
  }

  /** The collision reported for a batch: evidence before observations, least ID first. */
  function Collision(s: Store, b: Batch): Option<Clash> {
    var e := FirstWhere(SortBy(EvidenceOrder(), b.evidence), (x: Evidence) => ClashesEvidence(s, x));
    if e.Some? then Some(EvidenceClash(e.value.id))
    else
      var o := FirstWhere(SortBy(ById(), b.observations), (x: Observation) => ClashesObservation(s, x));
      if o.Some? then Some(ObservationClash(o.value.id)) else None
  }

  function WithEvidence(m: map<string, Evidence>, s: seq<Evidence>): map<string, Evidence> {
    if s == [] then m
    else
      var m', e := WithEvidence(m, s[..|s| - 1]), s[|s| - 1];
      if e.id in m' then m' else m'[e.id := e]
  }

  function WithObservation(s: Store, o: Observation): Store {
    if o.id in s.observations then s
    else s.(observations := s.observations[o.id := o],
            byName := AddTo(s.byName, NameKeyOf()(o), o.id),
            byPeriod := AddTo(s.byPeriod, PeriodKeyOf()(o), o.id))
  }

  function WithObservations(s: Store, os: seq<Observation>): Store {
    if os == [] then s else WithObservation(WithObservations(s, os[..|os| - 1]), os[|os| - 1])
  }

  /** The tables after a batch that does not collide. */
  function Absorb(s: Store, b: Batch): Store {
    var s1 := WithObservations(s.(evidence := WithEvidence(s.evidence, b.evidence)), b.observations);
    s1.(issues := s1.issues + Elements(b.issues))
  }

  function Ingest(s: Store, b: Batch): Result<Store, Clash> {
    var c := Collision(s, b);
    if c.Some? then Err(c.value) else Ok(Absorb(s, b))
  }

  lemma CollisionIsExact(s: Store, b: Batch)
    ensures Collision(s, b).None? <==>
      && (forall e :: e in b.evidence ==> !ClashesEvidence(s, e))
      && (forall o :: o in b.observations ==> !ClashesObservation(s, o))
  {
    SameMembers(SortBy(EvidenceOrder(), b.evidence), b.evidence);
    SameMembers(SortBy(ById(), b.observations), b.observations);
  }

  lemma {:induction false} FirstIsLeast<T(!new)>(le: (T, T) -> bool, s: seq<T>, p: T -> bool, x: T)
    requires Linear(le) && InOrder(le, s) && x in s && p(x)
    ensures FirstWhere(s, p).Some? && le(FirstWhere(s, p).value, x)
  {
    if p(s[0]) {
      assert Connected(le, x, x);
      var i :| 0 <= i < |s| && s[i] == x;
      if i > 0 { assert OrderedAt(le, s, 0, i); }
    } else {
      forall i, j | 0 <= i < j < |s[1..]| ensures OrderedAt(le, s[1..], i, j) { assert OrderedAt(le, s, i + 1, j + 1); }
      FirstIsLeast(le, s[1..], p, x);
    }
  }

  /** The clash reported is the first by ID, of the evidence if any evidence clashes, otherwise of the observations. */
  lemma CollisionIsFirst(s: Store, b: Batch)
    ensures var c := Collision(s, b);
      c.Some? && c.value.EvidenceClash? ==>
        && (exists e :: e in b.evidence && ClashesEvidence(s, e) && e.id == c.value.id)
        && forall e :: e in b.evidence && ClashesEvidence(s, e) ==> TextOrder(c.value.id, e.id)
    ensures var c := Collision(s, b);
      c.Some? && c.value.ObservationClash? ==>
        && (forall e :: e in b.evidence ==> !ClashesEvidence(s, e))
        && (exists o :: o in b.observations && ClashesObservation(s, o) && o.id == c.value.id)
        && forall o :: o in b.observations && ClashesObservation(s, o) ==> TextOrder(c.value.id, o.id)
  {
    var es, os := SortBy(EvidenceOrder(), b.evidence), SortBy(ById(), b.observations);
    SameMembers(es, b.evidence);
    SameMembers(os, b.observations);
    KeysAreLinear((e: Evidence) => [Text(e.id)]);
    KeysAreLinear((o: Observation) => [Text(o.id)]);
    SortByIsInOrder(EvidenceOrder(), b.evidence);
    SortByIsInOrder(ById(), b.observations);
    var e0 := FirstWhere(es, (x: Evidence) => ClashesEvidence(s, x));
    var o0 := FirstWhere(os, (x: Observation) => ClashesObservation(s, x));
    forall e | e in b.evidence && ClashesEvidence(s, e) ensures e0.Some? && TextOrder(e0.value.id, e.id) {
      FirstIsLeast(EvidenceOrder(), es, (x: Evidence) => ClashesEvidence(s, x), e);
      KeyIsTextOrder(e0.value.id, e.id);
    }
    forall o | o in b.observations && ClashesObservation(s, o) ensures o0.Some? && TextOrder(o0.value.id, o.id) {
      FirstIsLeast(ById(), os, (x: Observation) => ClashesObservation(s, x), o);
      KeyIsTextOrder(o0.value.id, o.id);
    }
  }

  // ---------- What ingestion stores ----------

  lemma LastEvidence(s: seq<Evidence>)
    requires s != [] && Unique(EvidenceIds(s))
    ensures var front, last := s[..|s| - 1], s[|s| - 1];
      && Unique(EvidenceIds(front))
      && (forall id :: id in EvidenceIds(s) <==> id in EvidenceIds(front) || id == last.id)
      && (forall e :: e in front ==> e.id != last.id)
  {
    var ids, n := EvidenceIds(s), |s| - 1;
    assert EvidenceIds(s[..n]) == ids[..n] && ids == ids[..n] + [s[n].id];
    UniquePrefix(ids, n);
    forall e | e in s[..n] ensures e.id != s[n].id {
      var i :| 0 <= i < n && s[i] == e;
      assert ids[..n][i] == e.id;
    }
  }

  ghost predicate HoldsEvidence(m: map<string, Evidence>, s: seq<Evidence>, r: map<string, Evidence>) {
    && (forall id :: id in r <==> id in m || id in EvidenceIds(s))
    && (forall id :: id in m ==> id in r && r[id] == m[id])
    && (forall e :: e in s ==> e.id in r && r[e.id] == e)
  }

  lemma EvidenceAdded(m: map<string, Evidence>, s: seq<Evidence>, before: map<string, Evidence>)
    requires s != [] && Unique(EvidenceIds(s)) && HoldsEvidence(m, s[..|s| - 1], before)
    requires s[|s| - 1].id in m ==> m[s[|s| - 1].id] == s[|s| - 1]
    ensures var e := s[|s| - 1]; HoldsEvidence(m, s, if e.id in before then before else before[e.id := e])
  {
    LastEvidence(s);
    assert s == s[..|s| - 1] + [s[|s| - 1]];
  }

  lemma {:induction false} EvidenceStored(m: map<string, Evidence>, s: seq<Evidence>)
    requires Unique(EvidenceIds(s)) && forall e :: e in s && e.id in m ==> m[e.id] == e
    ensures HoldsEvidence(m, s, WithEvidence(m, s))
  {
    if s != [] {
      LastEvidence(s);
      EvidenceStored(m, s[..|s| - 1]);
      EvidenceAdded(m, s, WithEvidence(m, s[..|s| - 1]));
    }
  }

  lemma LastObservation(os: seq<Observation>)
    requires os != [] && Unique(ObservationIds(os))
    ensures var front, last := os[..|os| - 1], os[|os| - 1];
      && Unique(ObservationIds(front))
      && (forall id :: id in ObservationIds(os) <==> id in ObservationIds(front) || id == last.id)
      && (forall o :: o in front ==> o.id != last.id)
  {
    var ids, n := ObservationIds(os), |os| - 1;
    assert ObservationIds(os[..n]) == ids[..n] && ids == ids[..n] + [os[n].id];
    UniquePrefix(ids, n);
    forall o | o in os[..n] ensures o.id != os[n].id {
      var i :| 0 <= i < n && os[i] == o;
      assert ids[..n][i] == o.id;
    }
  }

  ghost predicate HoldsObservations(s: Store, os: seq<Observation>, r: Store) {
    && r.evidence == s.evidence && r.issues == s.issues
    && (forall id :: id in r.observations <==> id in s.observations || id in ObservationIds(os))
    && (forall id :: id in s.observations ==> id in r.observations && r.observations[id] == s.observations[id])
    && (forall o :: o in os ==> o.id in r.observations && r.observations[o.id] == o)
  }

  lemma ObservationAdded(s: Store, os: seq<Observation>, before: Store)
    requires os != [] && Unique(ObservationIds(os)) && HoldsObservations(s, os[..|os| - 1], before)
    requires os[|os| - 1].id in s.observations ==> s.observations[os[|os| - 1].id] == os[|os| - 1]
    ensures HoldsObservations(s, os, WithObservation(before, os[|os| - 1]))
  {
    LastObservation(os);
    assert os == os[..|os| - 1] + [os[|os| - 1]];
  }

  lemma {:induction false} ObservationsStored(s: Store, os: seq<Observation>)
    requires Unique(ObservationIds(os)) && forall o :: o in os && o.id in s.observations ==> s.observations[o.id] == o
    ensures HoldsObservations(s, os, WithObservations(s, os))
  {
    if os != [] {
      LastObservation(os);
      ObservationsStored(s, os[..|os| - 1]);
      ObservationAdded(s, os, WithObservations(s, os[..|os| - 1]));
    }
  }

  lemma AddKeepsExact<K(!new)>(
      index: map<K, set<string>>, stored: map<string, Observation>, keyOf: Observation -> K, o: Observation)
    requires Exact(index, stored, keyOf) && o.id !in stored
    ensures Exact(AddTo(index, keyOf(o), o.id), stored[o.id := o], keyOf)
  {
    var index', stored' := AddTo(index, keyOf(o), o.id), stored[o.id := o];
    forall key, id ensures IndexedAt(index', stored', keyOf, key, id) {
      assert IndexedAt(index, stored, keyOf, key, id);
    }
  }

  /** The stored observations determine an exact index. */
  lemma ExactIsUnique<K(!new)>(
      a: map<K, set<string>>, b: map<K, set<string>>, stored: map<string, Observation>, keyOf: Observation -> K)
    requires Exact(a, stored, keyOf) && Exact(b, stored, keyOf)
    ensures a == b
  {
    forall key ensures Lookup(a, key) == Lookup(b, key) {
      forall id ensures id in Lookup(a, key) <==> id in Lookup(b, key) {
        assert IndexedAt(a, stored, keyOf, key, id) && IndexedAt(b, stored, keyOf, key, id);
      }
    }
    forall key ensures key in a <==> key in b {
      assert Lookup(a, key) == Lookup(b, key);
    }
    forall key | key in a ensures a[key] == b[key] { assert Lookup(a, key) == Lookup(b, key); }
  }

  lemma {:induction false} IndexesFollow(s: Store, os: seq<Observation>)
    requires Exact(s.byName, s.observations, NameKeyOf()) && Exact(s.byPeriod, s.observations, PeriodKeyOf())
    ensures var r := WithObservations(s, os);
      Exact(r.byName, r.observations, NameKeyOf()) && Exact(r.byPeriod, r.observations, PeriodKeyOf())
  {
    if os != [] {
      IndexesFollow(s, os[..|os| - 1]);
      var before, o := WithObservations(s, os[..|os| - 1]), os[|os| - 1];
      if o.id !in before.observations {
        AddKeepsExact(before.byName, before.observations, NameKeyOf(), o);
        AddKeepsExact(before.byPeriod, before.observations, PeriodKeyOf(), o);
      }
    }
  }

  /** The union of a ledger and a batch that does not collide with it. */
  ghost predicate Joins(s: Store, b: Batch, r: Store) {
    && (forall id :: id in r.evidence <==> id in s.evidence || id in EvidenceIds(b.evidence))
    && (forall id :: id in s.evidence ==> id in r.evidence && r.evidence[id] == s.evidence[id])
    && (forall e :: e in b.evidence ==> e.id in r.evidence && r.evidence[e.id] == e)
    && (forall id :: id in r.observations <==> id in s.observations || id in ObservationIds(b.observations))
    && (forall id :: id in s.observations ==> id in r.observations && r.observations[id] == s.observations[id])
    && (forall o :: o in b.observations ==> o.id in r.observations && r.observations[o.id] == o)
    && r.issues == s.issues + Elements(b.issues)
  }

  lemma IngestJoins(s: Store, b: Batch)
    requires ValidBatch(b) && Collision(s, b).None?
    ensures Joins(s, b, Absorb(s, b))
  {
    CollisionIsExact(s, b);
    forall e | e in b.evidence && e.id in s.evidence ensures s.evidence[e.id] == e { assert !ClashesEvidence(s, e); }
    forall o | o in b.observations && o.id in s.observations ensures s.observations[o.id] == o {
      assert !ClashesObservation(s, o);
    }
    EvidenceStored(s.evidence, b.evidence);
    ObservationsStored(s.(evidence := WithEvidence(s.evidence, b.evidence)), b.observations);
  }

  lemma BatchObservation(b: Batch, id: string) returns (o: Observation)
    requires id in ObservationIds(b.observations)
    ensures o in b.observations && o.id == id
  {
    var i :| 0 <= i < |b.observations| && ObservationIds(b.observations)[i] == id;
    o := b.observations[i];
  }

  lemma BatchEvidence(b: Batch, id: string) returns (e: Evidence)
    requires id in EvidenceIds(b.evidence)
    ensures e in b.evidence && e.id == id
  {
    var i :| 0 <= i < |b.evidence| && EvidenceIds(b.evidence)[i] == id;
    e := b.evidence[i];
  }

  lemma IngestKeepsSound(s: Store, b: Batch)
    requires Sound(s) && ValidBatch(b) && Collision(s, b).None?
    ensures Sound(Absorb(s, b))
  {
    IngestJoins(s, b);
    IndexesFollow(s.(evidence := WithEvidence(s.evidence, b.evidence)), b.observations);
    var r := Absorb(s, b);
    forall id | id in r.evidence ensures r.evidence[id].id == id {
      if id !in s.evidence { var e := BatchEvidence(b, id); }
    }
    forall id | id in r.observations ensures r.observations[id].id == id && Resolved(r, r.observations[id]) {
      if id in s.observations { assert Resolved(s, s.observations[id]); } else { var o := BatchObservation(b, id); }
    }
  }

  // ---------- Laws of ingestion ----------

  lemma NoClashAfter(s: Store, b: Batch, r: Store)
    requires Joins(s, b, r)
    ensures Collision(r, b).None?
  {
    CollisionIsExact(r, b);
  }

  lemma {:induction false} EvidenceAlreadyThere(m: map<string, Evidence>, s: seq<Evidence>)
    requires forall e :: e in s ==> e.id in m
    ensures WithEvidence(m, s) == m
  {
    if s != [] { EvidenceAlreadyThere(m, s[..|s| - 1]); }
  }

  lemma {:induction false} ObservationsAlreadyThere(s: Store, os: seq<Observation>)
    requires forall o :: o in os ==> o.id in s.observations
    ensures WithObservations(s, os) == s
  {
    if os != [] { ObservationsAlreadyThere(s, os[..|os| - 1]); }
  }

  /** Ingesting a batch again changes nothing, indexes included. */
  lemma IngestIsIdempotent(s: Store, b: Batch)
    requires ValidBatch(b) && Ingest(s, b).Ok?
    ensures Ingest(Ingest(s, b).value, b) == Ingest(s, b)
  {
    var r := Absorb(s, b);
    IngestJoins(s, b);
    NoClashAfter(s, b, r);
    EvidenceAlreadyThere(r.evidence, b.evidence);
    ObservationsAlreadyThere(r, b.observations);
    assert r.issues + Elements(b.issues) == r.issues;
    assert r.(evidence := r.evidence) == r;
  }

  /** Two batches that agree wherever they use the same ID. */
  predicate Compatible(a: Batch, b: Batch) {
    && (forall x, y :: x in a.evidence && y in b.evidence && x.id == y.id ==> x == y)
    && (forall x, y :: x in a.observations && y in b.observations && x.id == y.id ==> x == y)
  }

  /** The second of two batches collides exactly when it collides with the ledger or with the first. */
  lemma SecondCollides(s: Store, a: Batch, b: Batch)
    requires ValidBatch(a) && Collision(s, a).None?
    ensures Collision(Absorb(s, a), b).None? <==> Collision(s, b).None? && Compatible(a, b)
  {
    var r := Absorb(s, a);
    IngestJoins(s, a);
    CollisionIsExact(s, b);
    CollisionIsExact(r, b);
    if Collision(s, b).None? && Compatible(a, b) {
      forall e | e in b.evidence ensures !ClashesEvidence(r, e) {
        assert !ClashesEvidence(s, e);
        if e.id in r.evidence && e.id !in s.evidence { var x := BatchEvidence(a, e.id); }
      }
      forall o | o in b.observations ensures !ClashesObservation(r, o) {
        assert !ClashesObservation(s, o);
        if o.id in r.observations && o.id !in s.observations { var x := BatchObservation(a, o.id); }
      }
    }
    if Collision(r, b).None? { NoClashBefore(s, a, b, r); }
  }

  lemma NoClashBefore(s: Store, a: Batch, b: Batch, r: Store)
    requires Joins(s, a, r) && Collision(r, b).None?
    ensures Collision(s, b).None? && Compatible(a, b)
  {
    CollisionIsExact(s, b);
    CollisionIsExact(r, b);
    forall e | e in b.evidence ensures !ClashesEvidence(s, e) { assert !ClashesEvidence(r, e); }
    forall o | o in b.observations ensures !ClashesObservation(s, o) { assert !ClashesObservation(r, o); }
    forall x, y | x in a.evidence && y in b.evidence && x.id == y.id ensures x == y { assert !ClashesEvidence(r, y); }
    forall x, y | x in a.observations && y in b.observations && x.id == y.id ensures x == y {
      assert !ClashesObservation(r, y);
    }
  }

  function IngestBoth(s: Store, a: Batch, b: Batch): Result<Store, Clash> {
    var first := Ingest(s, a);
    if first.Err? then first else Ingest(first.value, b)
  }

  lemma SameEvidence(s: Store, a: Batch, b: Batch, sa: Store, sab: Store, sb: Store, sba: Store)
    requires Joins(s, a, sa) && Joins(sa, b, sab) && Joins(s, b, sb) && Joins(sb, a, sba)
    ensures sab.evidence == sba.evidence && sab.issues == sba.issues
  {
    forall id | id in sab.evidence ensures sab.evidence[id] == sba.evidence[id] {
      if id !in s.evidence {
        if id in EvidenceIds(a.evidence) { var e := BatchEvidence(a, id); } else { var e := BatchEvidence(b, id); }
      }
    }
  }

  lemma SameObservations(s: Store, a: Batch, b: Batch, sa: Store, sab: Store, sb: Store, sba: Store)
    requires Joins(s, a, sa) && Joins(sa, b, sab) && Joins(s, b, sb) && Joins(sb, a, sba)
    ensures sab.observations == sba.observations
  {
    forall id | id in sab.observations ensures sab.observations[id] == sba.observations[id] {
      if id !in s.observations {
        if id in ObservationIds(a.observations) {
          var o := BatchObservation(a, id);
        } else {
          var o := BatchObservation(b, id);
        }
      }
    }
  }

  /** Batches commute: one order succeeds when the other does, and leaves the same ledger, indexes included. */
  lemma BatchesCommute(s: Store, a: Batch, b: Batch)
    requires Sound(s) && ValidBatch(a) && ValidBatch(b)
    ensures IngestBoth(s, a, b).Ok? <==> IngestBoth(s, b, a).Ok?
    ensures IngestBoth(s, a, b).Ok? ==> IngestBoth(s, a, b) == IngestBoth(s, b, a)
  {
    BothSucceed(s, a, b);
    BothSucceed(s, b, a);
    if Compatible(a, b) { CompatibleBothWays(a, b); } else if Compatible(b, a) { CompatibleBothWays(b, a); }
    if IngestBoth(s, a, b).Ok? { CommutedStores(s, a, b); }
  }

  lemma CompatibleBothWays(a: Batch, b: Batch)
    requires Compatible(a, b)
    ensures Compatible(b, a)
  {
  }

  /** Two batches are ingested one after the other exactly when neither collides with the ledger or with the other. */
  lemma BothSucceed(s: Store, a: Batch, b: Batch)
    requires ValidBatch(a)
    ensures IngestBoth(s, a, b).Ok? <==>
      Collision(s, a).None? && Collision(s, b).None? && Compatible(a, b)
    ensures IngestBoth(s, a, b).Ok? ==>
      IngestBoth(s, a, b).value == Absorb(Absorb(s, a), b) && Collision(Absorb(s, a), b).None?
  {
    if Collision(s, a).None? { SecondCollides(s, a, b); }
  }

  lemma CommutedStores(s: Store, a: Batch, b: Batch)
    requires Sound(s) && ValidBatch(a) && ValidBatch(b) && Collision(s, a).None? && Collision(s, b).None?
    requires Collision(Absorb(s, a), b).None? && Collision(Absorb(s, b), a).None?
    ensures Absorb(Absorb(s, a), b) == Absorb(Absorb(s, b), a)
  {
    var sa, sb := Absorb(s, a), Absorb(s, b);
    var sab, sba := Absorb(sa, b), Absorb(sb, a);
    IngestJoins(s, a);
    IngestJoins(sa, b);
    IngestJoins(s, b);
    IngestJoins(sb, a);
    SameEvidence(s, a, b, sa, sab, sb, sba);
    SameObservations(s, a, b, sa, sab, sb, sba);
    IngestKeepsSound(s, a);
    IngestKeepsSound(sa, b);
    IngestKeepsSound(s, b);
    IngestKeepsSound(sb, a);
    ExactIsUnique(sab.byName, sba.byName, sab.observations, NameKeyOf());
    ExactIsUnique(sab.byPeriod, sba.byPeriod, sab.observations, PeriodKeyOf());
  }

  /** Any sequence of batches; one that collides leaves the ledger as it was. */
  function IngestAll(s: Store, batches: seq<Batch>): Store {
    if batches == [] then s
    else
      var before := IngestAll(s, batches[..|batches| - 1]);
      var next := Ingest(before, batches[|batches| - 1]);
      if next.Ok? then next.value else before
  }

  lemma {:induction false} LedgersAreSound(batches: seq<Batch>)
    requires forall b :: b in batches ==> ValidBatch(b)
    ensures Sound(IngestAll(EmptyStore(), batches))
  {
    if batches != [] {
      var front := batches[..|batches| - 1];
      LedgersAreSound(front);
      if Collision(IngestAll(EmptyStore(), front), batches[|batches| - 1]).None? {
        IngestKeepsSound(IngestAll(EmptyStore(), front), batches[|batches| - 1]);
      }
    } else {
      forall key, id ensures IndexedAt(map[], map[], NameKeyOf(), key, id) { }
      forall key, id ensures IndexedAt(map[], map[], PeriodKeyOf(), key, id) { }
    }
  }

  // ---------- Selection ----------

  /** Some listing of the records with the given IDs; sorting forgets which. */
  ghost function Listing(m: map<string, Observation>, ids: set<string>): seq<Observation>
    requires ids <= m.Keys
  {
    if ids == {} then []
    else
      var id :| id in ids;
      Listing(m, ids - {id}) + [m[id]]
  }

  /** The `observations` property: all stored records, sorted. */
  ghost function Stored(m: map<string, Observation>): seq<Observation> {
    SortBy(ObservationOrder(), Listing(m, m.Keys))
  }

  ghost predicate OwnIds(m: map<string, Observation>) {
    forall id :: id in m ==> m[id].id == id
  }

  ghost predicate Lists(m: map<string, Observation>, ids: set<string>, s: seq<Observation>) {
    Unique(s) && forall o :: o in s <==> o.id in ids && o.id in m && m[o.id] == o
  }

  lemma ListOneMore(m: map<string, Observation>, ids: set<string>, s: seq<Observation>, id: string)
    requires OwnIds(m) && id in m && id !in ids && Lists(m, ids, s)
    ensures Lists(m, ids + {id}, s + [m[id]])
  {
    UniqueAppend(s, m[id]);
  }

  lemma {:induction false} ListingLists(m: map<string, Observation>, ids: set<string>)
    requires OwnIds(m) && ids <= m.Keys
    ensures Lists(m, ids, Listing(m, ids))
    decreases ids
  {
    if ids != {} {
      var id :| id in ids && Listing(m, ids) == Listing(m, ids - {id}) + [m[id]];
      ListingLists(m, ids - {id});
      ListOneMore(m, ids - {id}, Listing(m, ids - {id}), id);
      assert ids - {id} + {id} == ids;
    }
  }

  lemma KeysSeparate(m: map<string, Observation>, s: seq<Observation>)
    requires OwnIds(m) && forall o :: o in s ==> o.id in m && m[o.id] == o
    ensures Separates(ObservationOrder(), s)
  {
    forall x, y | x in s && y in s ensures Separated(ObservationOrder(), x, y) {
      if ObservationOrder()(x, y) && ObservationOrder()(y, x) { SameKeySameRecord(m, x, y); }
    }
  }

  lemma SameKeySameRecord(m: map<string, Observation>, x: Observation, y: Observation)
    requires x.id in m && m[x.id] == x && y.id in m && m[y.id] == y
    requires AtMost(ObservationKey(x), ObservationKey(y)) && AtMost(ObservationKey(y), ObservationKey(x))
    ensures x == y
  {
    KeyOrder(ObservationKey(x), ObservationKey(y));
    assert ObservationKey(x)[10] == ObservationKey(y)[10];
    TextIsInjective(x.id, y.id);
  }

  /** Any two listings of the same records sort to the same list. */
  lemma SortedListing(m: map<string, Observation>, ids: set<string>, s: seq<Observation>)
    requires OwnIds(m) && ids <= m.Keys && Lists(m, ids, s)
    ensures SortBy(ObservationOrder(), s) == SortBy(ObservationOrder(), Listing(m, ids))
  {
    ListingLists(m, ids);
    SameElements(s, Listing(m, ids));
    KeysSeparate(m, s);
    KeysAreLinear(ObservationKey);
    SortingIsCanonical(ObservationOrder(), s, Listing(m, ids));
  }

  /** Filtering the sorted store is sorting the records that pass. */
  lemma FilteredStore(m: map<string, Observation>, ids: set<string>, keep: Observation -> bool)
    requires OwnIds(m) && forall id :: id in ids <==> id in m && keep(m[id])
    ensures ids <= m.Keys && SortBy(ObservationOrder(), Listing(m, ids)) == Selection(Stored(m), keep)
  {
    var le, all := ObservationOrder(), Listing(m, m.Keys);
    ListingLists(m, m.Keys);
    ListingLists(m, ids);
    KeysAreLinear(ObservationKey);
    SortByIsInOrder(le, all);
    SortByIsInOrder(le, Listing(m, ids));
    SelectionInOrder(le, Stored(m), keep);
    SortedUnique(le, all);
    SortedUnique(le, Listing(m, ids));
    SelectionMembers(Stored(m), keep);
    SameSelection(m, ids, keep);
    KeysSeparate(m, SortBy(le, Listing(m, ids)));
    OneSortedList(le, SortBy(le, Listing(m, ids)), Selection(Stored(m), keep));
  }

  /** What passes the filter, once each and in order. */
  lemma SelectedRecords(m: map<string, Observation>, keep: Observation -> bool)
    requires OwnIds(m)
    ensures var s := Selection(Stored(m), keep);
      && EarlierFirst(s) && Unique(s) && forall o :: o in s <==> o.id in m && m[o.id] == o && keep(o)
  {
    var le, all := ObservationOrder(), Listing(m, m.Keys);
    ListingLists(m, m.Keys);
    KeysAreLinear(ObservationKey);
    SortByIsInOrder(le, all);
    SortedUnique(le, all);
    SameMembers(Stored(m), all);
    SelectionInOrder(le, Stored(m), keep);
    SelectionMembers(Stored(m), keep);
    SortedIsEarlierFirst(Selection(Stored(m), keep));
  }

  lemma SameSelection(m: map<string, Observation>, ids: set<string>, keep: Observation -> bool)
    requires OwnIds(m) && ids <= m.Keys && forall id :: id in ids <==> id in m && keep(m[id])
    ensures multiset(SortBy(ObservationOrder(), Listing(m, ids))) == multiset(Selection(Stored(m), keep))
    ensures forall o :: o in SortBy(ObservationOrder(), Listing(m, ids)) ==> o.id in m && m[o.id] == o
  {
    var le, all, some := ObservationOrder(), Listing(m, m.Keys), Listing(m, ids);
    ListingLists(m, m.Keys);
    ListingLists(m, ids);
    SortedUnique(le, all);
    SortedUnique(le, some);
    SameMembers(SortBy(le, all), all);
    SameMembers(SortBy(le, some), some);
    SelectionMembers(SortBy(le, all), keep);
    SameElements(SortBy(le, some), Selection(SortBy(le, all), keep));
  }

  // ---------- Evidence packets ----------

  datatype Packet = Packet(observations: seq<Observation>, evidence: seq<Evidence>)

  datatype PacketError =
    | BadRequest | BadLimit | UnknownIds | TooManyObservations | TooMuchEvidence | TooLarge
    | RepeatedIds | MissingEvidence | UnexpectedEvidence

  const MAX_PACKET_OBSERVATIONS := 100
  const MAX_PACKET_EVIDENCE := 100
  const MAX_PACKET_BYTES := 256_000

  datatype Limits = Limits(observations: int, evidence: int, bytes: int)

  predicate ValidLimits(l: Limits) {
    && 1 <= l.observations <= MAX_PACKET_OBSERVATIONS
    && 1 <= l.evidence <= MAX_PACKET_EVIDENCE
    && 1 <= l.bytes <= MAX_PACKET_BYTES
  }

  function EvidenceList(os: seq<Observation>): seq<string> {
    if os == [] then [] else EvidenceList(os[..|os| - 1]) + os[|os| - 1].evidence
  }

  /** `EvidencePacket.__post_init__` */
  function MakePacket(os: seq<Observation>, es: seq<Evidence>): Result<Packet, PacketError> {
    var observations, evidence := SortBy(ObservationOrder(), os), SortBy(EvidenceOrder(), es);
    var referenced, available := Elements(EvidenceList(observations)), Elements(EvidenceIds(evidence));
    if !Unique(ObservationIds(observations)) || !Unique(EvidenceIds(evidence)) then Err(RepeatedIds)
    else if !(referenced <= available) then Err(MissingEvidence)
    else if !(available <= referenced) then Err(UnexpectedEvidence)
    else Ok(Packet(observations, evidence))
  }

  function Records(m: map<string, Observation>, ids: seq<string>): (r: seq<Observation>)
    requires forall id :: id in ids ==> id in m
    ensures |r| == |ids| && forall i :: 0 <= i < |ids| ==> r[i] == m[ids[i]]
  {
    seq(|ids|, i requires 0 <= i < |ids| => m[ids[i]])
  }

  /** `resolve_evidence` on known IDs */
  function Resolve(m: map<string, Evidence>, ids: seq<string>): (r: seq<Evidence>)
    requires forall id :: id in ids ==> id in m
    ensures |r| == |ids| && forall i :: 0 <= i < |ids| ==> r[i] == m[ids[i]]
  {
    seq(|ids|, i requires 0 <= i < |ids| => m[ids[i]])
  }

  /** `sorted({...})` over the evidence the observations cite. */
  function SourceIds(os: seq<Observation>): seq<string> {
    SortBy(IdOrder(), Distinct(EvidenceList(os)))
  }

  lemma SourceIdsAreCited(os: seq<Observation>)
    ensures Unique(SourceIds(os)) && |SourceIds(os)| == |Elements(EvidenceList(os))|
    ensures forall id :: id in SourceIds(os) <==> id in EvidenceList(os)
  {
    SortedUnique(IdOrder(), Distinct(EvidenceList(os)));
    UniqueLength(SourceIds(os));
    forall id ensures id in SourceIds(os) <==> id in EvidenceList(os) {
      assert id in Elements(SourceIds(os)) <==> id in Elements(EvidenceList(os));
    }
  }

  predicate Known(s: Store, requested: seq<string>) {
    forall id :: id in requested ==> id in s.observations
  }

  predicate GoodRequest(s: Store, requested: seq<string>, limits: Limits) {
    && requested != [] && "" !in requested && Unique(requested) && ValidLimits(limits)
    && Known(s, requested) && |requested| <= limits.observations
  }

  /** Which check of a bad request fails first. */
  function RequestError(s: Store, requested: seq<string>, limits: Limits): PacketError {
    if "" in requested || !Unique(requested) || requested == [] then BadRequest
    else if !ValidLimits(limits) then BadLimit
    else if !Known(s, requested) then UnknownIds
    else TooManyObservations
  }

  function BuildPacket(s: Store, os: seq<Observation>, sources: seq<string>): Result<Packet, PacketError> {
    if forall id :: id in sources ==> id in s.evidence then MakePacket(os, Resolve(s.evidence, sources))
    else Err(UnknownIds)
  }

  /** `evidence_packet`; `size` is the length of a packet's encoding. */
  function PacketFor(
      s: Store, requested: seq<string>, limits: Limits, size: Packet -> int): Result<Packet, PacketError>
  {
    if !GoodRequest(s, requested, limits) then Err(RequestError(s, requested, limits))
    else
      var os := Records(s.observations, requested);
      if |SourceIds(os)| > limits.evidence then Err(TooMuchEvidence)
      else
        var packet := BuildPacket(s, os, SourceIds(os));
        if packet.Ok? && size(packet.value) > limits.bytes then Err(TooLarge) else packet
  }

  lemma {:induction false} EvidenceMembers(os: seq<Observation>, e: string)
    ensures e in EvidenceList(os) <==> exists o :: o in os && e in o.evidence
  {
    if os != [] {
      var n := |os| - 1;
      EvidenceMembers(os[..n], e);
      assert os == os[..n] + [os[n]];
      if e in EvidenceList(os) && e !in EvidenceList(os[..n]) { assert os[n] in os && e in os[n].evidence; }
    }
  }

  /** What a packet for the requested observations holds: those records and the evidence they cite, nothing else. */
  ghost predicate ExactPacket(s: Store, requested: seq<string>, p: Packet) {
    && EarlierFirst(p.observations) && SmallerIdFirst(p.evidence)
    && Unique(p.observations) && Unique(p.evidence)
    && (forall o :: o in p.observations <==> o.id in requested && o.id in s.observations && s.observations[o.id] == o)
    && (forall e :: e in p.evidence <==>
          e.id in s.evidence && s.evidence[e.id] == e && exists o :: o in p.observations && e.id in o.evidence)
  }

  lemma RecordsList(s: Store, requested: seq<string>)
    requires Sound(s) && Unique(requested) && forall id :: id in requested ==> id in s.observations
    ensures Lists(s.observations, Elements(requested), Records(s.observations, requested))
  {
    var r := Records(s.observations, requested);
    forall i, j | 0 <= i < j < |r| ensures Differ(r, i, j) { assert Differ(requested, i, j); }
    forall o ensures o in r <==> o.id in Elements(requested) && o.id in s.observations && s.observations[o.id] == o {
      if o.id in requested && o.id in s.observations && s.observations[o.id] == o {
        var i :| 0 <= i < |requested| && requested[i] == o.id;
        assert r[i] == o;
      }
    }
  }

  lemma ResolvedList(s: Store, sources: seq<string>)
    requires Sound(s) && Unique(sources) && forall id :: id in sources ==> id in s.evidence
    ensures Unique(Resolve(s.evidence, sources))
    ensures forall e :: e in Resolve(s.evidence, sources) <==>
      e.id in sources && e.id in s.evidence && s.evidence[e.id] == e
  {
    var r := Resolve(s.evidence, sources);
    forall i, j | 0 <= i < j < |r| ensures Differ(r, i, j) { assert Differ(sources, i, j); }
    forall e ensures e in r <==> e.id in sources && e.id in s.evidence && s.evidence[e.id] == e {
      if e.id in sources && e.id in s.evidence && s.evidence[e.id] == e {
        var i :| 0 <= i < |sources| && sources[i] == e.id;
        assert r[i] == e;
      }
    }
  }

  lemma SourcesKnown(s: Store, requested: seq<string>)
    requires Sound(s) && forall id :: id in requested ==> id in s.observations
    ensures forall e :: e in EvidenceList(Records(s.observations, requested)) ==> e in s.evidence
  {
    var os := Records(s.observations, requested);
    forall e | e in EvidenceList(os) ensures e in s.evidence {
      EvidenceMembers(os, e);
      var o :| o in os && e in o.evidence;
      var i :| 0 <= i < |os| && os[i] == o;
      assert Resolved(s, s.observations[requested[i]]);
    }
  }

  lemma ObservationIdsUnique(m: map<string, Observation>, s: seq<Observation>)
    requires Unique(s) && forall o :: o in s ==> o.id in m && m[o.id] == o
    ensures Unique(ObservationIds(s))
  {
    forall i, j | 0 <= i < j < |s| ensures Differ(ObservationIds(s), i, j) {
      assert Differ(s, i, j) && s[i] in s && s[j] in s;
    }
  }

  lemma EvidenceIdsUnique(m: map<string, Evidence>, s: seq<Evidence>)
    requires Unique(s) && forall e :: e in s ==> e.id in m && m[e.id] == e
    ensures Unique(EvidenceIds(s))
  {
    forall i, j | 0 <= i < j < |s| ensures Differ(EvidenceIds(s), i, j) {
      assert Differ(s, i, j) && s[i] in s && s[j] in s;
    }
  }

  lemma EvidenceIdMembers(s: seq<Evidence>, id: string)
    ensures id in EvidenceIds(s) <==> exists e :: e in s && e.id == id
  {
    if id in EvidenceIds(s) {
      var i :| 0 <= i < |s| && EvidenceIds(s)[i] == id;
      assert s[i] in s;
    }
    if e :| e in s && e.id == id {
      var i :| 0 <= i < |s| && s[i] == e;
      assert EvidenceIds(s)[i] == id;
    }
  }

  /** `es` are the stored records of all the evidence `os` cite. */
  ghost predicate CitedBy(s: Store, os: seq<Observation>, es: seq<Evidence>) {
    && Unique(es)
    && (forall e :: e in es <==> e.id in EvidenceList(os) && e.id in s.evidence && s.evidence[e.id] == e)
    && (forall id :: id in EvidenceList(os) ==> id in s.evidence)
  }

  /** The constructor's checks hold for records and evidence that match. */
  lemma MatchingPacket(s: Store, requested: seq<string>, os: seq<Observation>, es: seq<Evidence>)
    requires Sound(s) && Lists(s.observations, Elements(requested), os) && CitedBy(s, os, es)
    ensures MakePacket(os, es).Ok? && ExactPacket(s, requested, MakePacket(os, es).value)
  {
    var observations, evidence := SortBy(ObservationOrder(), os), SortBy(EvidenceOrder(), es);
    KeysAreLinear(ObservationKey);
    KeysAreLinear((e: Evidence) => [Text(e.id)]);
    SortByIsInOrder(ObservationOrder(), os);
    SortByIsInOrder(EvidenceOrder(), es);
    SortedIsEarlierFirst(observations);
    SortedIsSmallerIdFirst(evidence);
    SortedUnique(ObservationOrder(), os);
    SortedUnique(EvidenceOrder(), es);
    SameMembers(observations, os);
    SameMembers(evidence, es);
    ObservationIdsUnique(s.observations, observations);
    EvidenceIdsUnique(s.evidence, evidence);
    forall id ensures id in Elements(EvidenceList(observations)) <==> id in Elements(EvidenceIds(evidence)) {
      EvidenceMembers(observations, id);
      EvidenceMembers(os, id);
      EvidenceIdMembers(evidence, id);
      if id in EvidenceList(os) { assert s.evidence[id] in es; }
    }
    forall e ensures e in evidence <==>
      e.id in s.evidence && s.evidence[e.id] == e && exists o :: o in observations && e.id in o.evidence
    {
      EvidenceMembers(observations, e.id);
      EvidenceMembers(os, e.id);
    }
  }

  /** How many evidence records the requested observations cite. */
  function Cited(s: Store, requested: seq<string>): nat
    requires Known(s, requested)
  {
    |Elements(EvidenceList(Records(s.observations, requested)))|
  }

  lemma SourcesResolve(s: Store, requested: seq<string>)
    requires Sound(s) && Known(s, requested)
    ensures var os := Records(s.observations, requested); var sources := SourceIds(os);
      && (forall id :: id in sources ==> id in s.evidence) && CitedBy(s, os, Resolve(s.evidence, sources))
      && |sources| == Cited(s, requested)
  {
    var os := Records(s.observations, requested);
    SourcesKnown(s, requested);
    SourceIdsAreCited(os);
    ResolvedList(s, SourceIds(os));
  }

  lemma PacketOfKnownRecords(s: Store, requested: seq<string>) returns (p: Packet)
    requires Sound(s) && Unique(requested) && Known(s, requested)
    ensures ExactPacket(s, requested, p)
    ensures var os := Records(s.observations, requested); BuildPacket(s, os, SourceIds(os)) == Ok(p)
  {
    var os := Records(s.observations, requested);
    SourcesResolve(s, requested);
    RecordsList(s, requested);
    MatchingPacket(s, requested, os, Resolve(s.evidence, SourceIds(os)));
    p := MakePacket(os, Resolve(s.evidence, SourceIds(os))).value;
  }

  lemma SameIdKey(a: string, b: string)
    requires AtMost([Text(a)], [Text(b)]) && AtMost([Text(b)], [Text(a)])
    ensures a == b
  {
    KeyOrder([Text(a)], [Text(b)]);
    assert [Text(a)] == [Text(b)];
    assert [Text(a)][0] == Text(a) && [Text(b)][0] == Text(b);
    TextIsInjective(a, b);
  }

  lemma EvidenceOfPackets(s: Store, requested: seq<string>, p: Packet, q: Packet)
    requires ExactPacket(s, requested, p) && ExactPacket(s, requested, q) && p.observations == q.observations
    ensures p.evidence == q.evidence
  {
    var le := EvidenceOrder();
    assert Elements(p.evidence) == Elements(q.evidence);
    SameElements(p.evidence, q.evidence);
    forall i, j | 0 <= i < j < |p.evidence| ensures OrderedAt(le, p.evidence, i, j) {
      KeyIsTextOrder(p.evidence[i].id, p.evidence[j].id);
    }
    forall i, j | 0 <= i < j < |q.evidence| ensures OrderedAt(le, q.evidence, i, j) {
      KeyIsTextOrder(q.evidence[i].id, q.evidence[j].id);
    }
    forall x, y | x in p.evidence && y in p.evidence ensures Separated(le, x, y) {
      if le(x, y) && le(y, x) { SameIdKey(x.id, y.id); }
    }
    OneSortedList(le, p.evidence, q.evidence);
  }

  /** What is exact is unique. */
  lemma OneExactPacket(s: Store, requested: seq<string>, p: Packet, q: Packet)
    requires Sound(s) && ExactPacket(s, requested, p) && ExactPacket(s, requested, q)
    ensures p == q
  {
    var le := ObservationOrder();
    assert Elements(p.observations) == Elements(q.observations);
    SameElements(p.observations, q.observations);
    forall i, j | 0 <= i < j < |p.observations| ensures OrderedAt(le, p.observations, i, j) {
      OrderReads(p.observations[i], p.observations[j]);
    }
    forall i, j | 0 <= i < j < |q.observations| ensures OrderedAt(le, q.observations, i, j) {
      OrderReads(q.observations[i], q.observations[j]);
    }
    KeysSeparate(s.observations, p.observations);
    OneSortedList(le, p.observations, q.observations);
    EvidenceOfPackets(s, requested, p, q);
  }

  /** A request for known observations within every limit, the hard ones included. */
  predicate Admissible(s: Store, requested: seq<string>, limits: Limits) {
    && requested != [] && Unique(requested) && (forall id :: id in requested ==> id != "" && id in s.observations)
    && |requested| <= limits.observations <= 100 && 1 <= limits.evidence <= 100 && 1 <= limits.bytes <= 256_000
  }

  /** A packet built from a sound ledger holds exactly what it references; the packet's own checks never fail, and a
      request is refused exactly when it is malformed, unknown, or over a limit. */
  lemma PacketsAreExact(s: Store, requested: seq<string>, limits: Limits, size: Packet -> int)
    requires Sound(s)
    ensures var r := PacketFor(s, requested, limits, size);
      && (r.Ok? ==> ExactPacket(s, requested, r.value) && size(r.value) <= limits.bytes)
      && (r.Ok? || r.error == TooLarge <==>
          Admissible(s, requested, limits) && Cited(s, requested) <= limits.evidence)
      && (forall p :: ExactPacket(s, requested, p) && (r.Ok? || r.error == TooLarge) ==>
          (r == Ok(p) <==> size(p) <= limits.bytes))
      && (r.Err? ==> !r.error.RepeatedIds? && !r.error.MissingEvidence? && !r.error.UnexpectedEvidence?)
  {
    if GoodRequest(s, requested, limits) {
      SourcesResolve(s, requested);
      var p := PacketOfKnownRecords(s, requested);
      forall q | ExactPacket(s, requested, q) ensures q == p { OneExactPacket(s, requested, p, q); }
    }
  }

  /** Named, each once. */
  predicate WellNamed(requested: seq<string>) {
    requested != [] && Unique(requested) && "" !in requested
  }

  /** Which refusal a request meets, by the first requirement it fails. */
  lemma RefusalsAreOrdered(s: Store, requested: seq<string>, limits: Limits, size: Packet -> int)
    requires Sound(s)
    ensures var r := PacketFor(s, requested, limits, size);
      if !WellNamed(requested) then r == Err(BadRequest)
      else if !ValidLimits(limits) then r == Err(BadLimit)
      else if !Known(s, requested) then r == Err(UnknownIds)
      else if |requested| > limits.observations then r == Err(TooManyObservations)
      else if Cited(s, requested) > limits.evidence then r == Err(TooMuchEvidence)
      else r.Ok? || r == Err(TooLarge)
  {
    if GoodRequest(s, requested, limits) {
      SourcesResolve(s, requested);
      var p := PacketOfKnownRecords(s, requested);
    }
  }

  // ---------- The ledger object ----------

  datatype LookupError = BadLookup

  predicate Blank(c: char) {
    c == ' ' || '\t' <= c <= '\r'
  }

  /** Not empty and not padded. */
  predicate LookupId(s: string) {
    s != "" && !Blank(s[0]) && !Blank(s[|s| - 1])
  }

  class ObservationLedger {
    var observations: map<string, Observation>
    var evidence: map<string, Evidence>
    var issues: set<Issue>
    var byName: map<NameKey, set<string>>
    var byPeriod: map<PeriodKey, set<string>>

    ghost function Tables(): Store
      reads this
    {
      Store(observations, evidence, issues, byName, byPeriod)
    }

    ghost predicate Valid()
      reads this
    {
      Sound(Tables())
    }

    constructor ()
      ensures Valid() && Tables() == EmptyStore()
    {
      observations, evidence, issues, byName, byPeriod := map[], map[], {}, map[], map[];
      new;
      LedgersAreSound([]);
    }

    /** All or nothing: a batch that collides changes nothing. */
    method IngestBatch(b: Batch) returns (clash: Option<Clash>)
      requires Valid() && ValidBatch(b)
      modifies this
      ensures Valid() && clash == Collision(old(Tables()), b)
      ensures Tables() == if clash.Some? then old(Tables()) else Absorb(old(Tables()), b)
    {
      clash := FindClash(b);
      if clash.Some? { return; }
      IngestKeepsSound(Tables(), b);
      StoreEvidence(b.evidence);
      StoreObservations(b.observations);
      StoreIssues(b.issues);
    }

    method StoreEvidence(es: seq<Evidence>)
      modifies this`evidence
      ensures evidence == WithEvidence(old(evidence), es)
    {
      for i := 0 to |es|
        invariant evidence == WithEvidence(old(evidence), es[..i])
      {
        assert es[..i + 1][..i] == es[..i];
        if es[i].id !in evidence { evidence := evidence[es[i].id := es[i]]; }
      }
      assert es[..|es|] == es;
    }

    method StoreObservations(os: seq<Observation>)
      modifies this`observations, this`byName, this`byPeriod
      ensures Tables() == WithObservations(old(Tables()), os)
    {
      for i := 0 to |os|
        invariant Tables() == WithObservations(old(Tables()), os[..i])
      {
        assert os[..i + 1][..i] == os[..i];
        var o := os[i];
        if o.id !in observations {
          observations := observations[o.id := o];
          byName := AddTo(byName, (o.entity, o.name), o.id);
          byPeriod := AddTo(byPeriod, (o.entity, o.name, o.period), o.id);
        }
      }
      assert os[..|os|] == os;
    }

    method StoreIssues(added: seq<Issue>)
      modifies this`issues
      ensures issues == old(issues) + Elements(added)
    {
      for i := 0 to |added|
        invariant issues == old(issues) + Elements(added[..i])
      {
        assert added[..i + 1] == added[..i] + [added[i]];
        issues := issues + {added[i]};
      }
      assert added[..|added|] == added;
    }

    /** The two checking loops, in sorted order. */
    method FindClash(b: Batch) returns (clash: Option<Clash>)
      ensures clash == Collision(Tables(), b)
    {
      var es := SortBy(EvidenceOrder(), b.evidence);
      ghost var e? := (x: Evidence) => ClashesEvidence(old(Tables()), x);
      for i := 0 to |es|
        invariant FirstWhere(es, e?) == FirstWhere(es[i..], e?)
      {
        if es[i].id in evidence && evidence[es[i].id] != es[i] { return Some(EvidenceClash(es[i].id)); }
        assert es[i..][1..] == es[i + 1..];
      }
      var os := SortBy(ById(), b.observations);
      ghost var o? := (x: Observation) => ClashesObservation(old(Tables()), x);
      for i := 0 to |os|
        invariant FirstWhere(os, o?) == FirstWhere(os[i..], o?)
      {
        if os[i].id in observations && observations[os[i].id] != os[i] { return Some(ObservationClash(os[i].id)); }
        assert os[i..][1..] == os[i + 1..];
      }
      return None;
    }

    /** The records with the given IDs, in whatever order the set yields them, sorted. */
    method SortedRecords(ids: set<string>) returns (r: seq<Observation>)
      requires Valid() && ids <= observations.Keys
      ensures r == SortBy(ObservationOrder(), Listing(observations, ids))
    {
      var left, records: seq<Observation> := ids, [];
      while left != {}
        invariant left <= ids && Lists(observations, ids - left, records)
        decreases left
      {
        var id :| id in left;
        ListOneMore(observations, ids - left, records, id);
        assert ids - left + {id} == ids - (left - {id});
        records, left := records + [observations[id]], left - {id};
      }
      assert ids - left == ids;
      SortedListing(observations, ids, records);
      return SortBy(ObservationOrder(), records);
    }

    /** `select`: through the indexes, yet equal to filtering everything stored. */
    method Select(entity: string, name: string, period: Option<Period>)
      returns (r: Result<seq<Observation>, LookupError>)
      requires Valid()
      ensures r.Ok? <==> LookupId(entity) && LookupId(name)
      ensures r.Ok? ==> r.value == Selection(Stored(observations),
        (o: Observation) => o.entity == entity && o.name == name && (period.None? || o.period == period.value))
      ensures r.Ok? ==> EarlierFirst(r.value) && Unique(r.value)
      ensures r.Ok? ==> forall o :: o in r.value <==>
        o.id in observations && observations[o.id] == o && o.entity == entity && o.name == name
        && (period.None? || o.period == period.value)
    {
      if !LookupId(entity) || !LookupId(name) { return Err(BadLookup); }
      var ids: set<string>;
      ghost var keep := (o: Observation) =>
        o.entity == entity && o.name == name && (period.None? || o.period == period.value);
      if period.None? {
        ids := Lookup(byName, (entity, name));
        forall id ensures id in ids <==> id in observations && keep(observations[id]) {
          assert IndexedAt(byName, observations, NameKeyOf(), (entity, name), id);
        }
      } else {
        ids := Lookup(byPeriod, (entity, name, period.value));
        forall id ensures id in ids <==> id in observations && keep(observations[id]) {
          assert IndexedAt(byPeriod, observations, PeriodKeyOf(), (entity, name, period.value), id);
        }
      }
      FilteredStore(observations, ids, keep);
      var records := SortedRecords(ids);
      SelectedRecords(observations, keep);
      return Ok(records);
    }

    function EvidencePacket(
        requested: seq<string>, limits: Limits, size: Packet -> int): (r: Result<Packet, PacketError>)
      reads this
      requires Valid()
      ensures r.Ok? ==> ExactPacket(Tables(), requested, r.value)
    {
      PacketsAreExact(Tables(), requested, limits, size);
      PacketFor(Store(observations, evidence, issues, byName, byPeriod), requested, limits, size)
    }
  }
}
