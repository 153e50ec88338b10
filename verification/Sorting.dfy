/** `sorted(...)`: stable sorting by a linear order, and why its result does not depend on the order of its input. */
module Sorting {
  import opened Common

  // ---------- Orders ----------

  predicate Connected<T>(le: (T, T) -> bool, x: T, y: T) {
    le(x, y) || le(y, x)
  }

  predicate Chains<T>(le: (T, T) -> bool, x: T, y: T, z: T) {
    le(x, y) && le(y, z) ==> le(x, z)
  }

  ghost predicate Linear<T(!new)>(le: (T, T) -> bool) {
    (forall x, y :: Connected(le, x, y)) && (forall x, y, z :: Chains(le, x, y, z))
  }

  /** Elements that compare equal are equal. */
  predicate Separates<T(!new, ==)>(le: (T, T) -> bool, s: seq<T>) {
    forall x, y :: x in s && y in s ==> Separated(le, x, y)
  }

  predicate Separated<T(==)>(le: (T, T) -> bool, x: T, y: T) {
    le(x, y) && le(y, x) ==> x == y
  }

  predicate InOrder<T>(le: (T, T) -> bool, s: seq<T>) {
    forall i, j :: 0 <= i < j < |s| ==> OrderedAt(le, s, i, j)
  }

  predicate OrderedAt<T>(le: (T, T) -> bool, s: seq<T>, i: int, j: int)
    requires 0 <= i < |s| && 0 <= j < |s|
  {
    le(s[i], s[j])
  }

  // ---------- Sorting ----------

  /** Puts `x` after everything it does not have to precede. */
  function Insert<T>(le: (T, T) -> bool, x: T, s: seq<T>): (r: seq<T>)
    ensures |r| == |s| + 1
    ensures multiset(r) == multiset(s) + multiset{x}
  {
    if s == [] then [x]
    else
      var n := |s| - 1;
      assert s == s[..n] + [s[n]];
      if le(s[n], x) then s + [x] else Insert(le, x, s[..n]) + [s[n]]
  }

  function SortBy<T>(le: (T, T) -> bool, s: seq<T>): (r: seq<T>)
    ensures |r| == |s|
    ensures multiset(r) == multiset(s)
  {
    if s == [] then []
    else
      var n := |s| - 1;
      assert s == s[..n] + [s[n]];
      Insert(le, s[n], SortBy(le, s[..n]))
  }

  lemma SameMembers<T(!new)>(a: seq<T>, b: seq<T>)
    requires multiset(a) == multiset(b)
    ensures forall x :: x in a <==> x in b
  {
    forall x ensures x in a <==> x in b { assert x in a <==> x in multiset(a); assert x in b <==> x in multiset(b); }
  }

  lemma InOrderAppend<T>(le: (T, T) -> bool, s: seq<T>, x: T)
    requires InOrder(le, s) && forall y :: y in s ==> le(y, x)
    ensures InOrder(le, s + [x])
  {
    forall i, j | 0 <= i < j < |s| + 1 ensures OrderedAt(le, s + [x], i, j) {
      if j < |s| { assert OrderedAt(le, s, i, j); } else { assert s[i] in s; }
    }
  }

  lemma InOrderPrefix<T>(le: (T, T) -> bool, s: seq<T>, n: nat)
    requires InOrder(le, s) && n < |s|
    ensures InOrder(le, s[..n]) && forall y :: y in s[..n] ==> le(y, s[n])
  {
    forall i, j | 0 <= i < j < n ensures OrderedAt(le, s[..n], i, j) { assert OrderedAt(le, s, i, j); }
    forall y | y in s[..n] ensures le(y, s[n]) {
      var i :| 0 <= i < n && s[i] == y;
      assert OrderedAt(le, s, i, n);
    }
  }

  lemma {:induction false} InsertKeepsOrder<T(!new)>(le: (T, T) -> bool, x: T, s: seq<T>)
    requires Linear(le) && InOrder(le, s)
    ensures InOrder(le, Insert(le, x, s))
  {
    if s != [] {
      var n := |s| - 1;
      InOrderPrefix(le, s, n);
      if le(s[n], x) {
        forall y | y in s ensures le(y, x) {
          if y != s[n] { assert y in s[..n]; }
          assert Chains(le, y, s[n], x);
        }
        InOrderAppend(le, s, x);
      } else {
        assert Connected(le, s[n], x);
        InsertKeepsOrder(le, x, s[..n]);
        forall y | y in Insert(le, x, s[..n]) ensures le(y, s[n]) {
          assert y in multiset(Insert(le, x, s[..n]));
          assert y in s[..n] || y == x;
        }
        InOrderAppend(le, Insert(le, x, s[..n]), s[n]);
      }
    } else {
      assert InOrder(le, [x]);
    }
  }

  lemma {:induction false} SortByIsInOrder<T(!new)>(le: (T, T) -> bool, s: seq<T>)
    requires Linear(le)
    ensures InOrder(le, SortBy(le, s))
  {
    if s != [] {
      SortByIsInOrder(le, s[..|s| - 1]);
      InsertKeepsOrder(le, s[|s| - 1], SortBy(le, s[..|s| - 1]));
    }
  }

  /** A list is determined by its elements and its order. */
  lemma {:induction false} OneSortedList<T(!new)>(le: (T, T) -> bool, a: seq<T>, b: seq<T>)
    requires InOrder(le, a) && InOrder(le, b) && multiset(a) == multiset(b) && Separates(le, a)
    ensures a == b
    decreases |a|
  {
    SameLength(a, b);
    if a != [] {
      var n := |a| - 1;
      LastIsLargest(le, a, b, n);
      LastTaken(a);
      LastTaken(b);
      WithoutLast(a);
      WithoutLast(b);
      InOrderPrefix(le, a, n);
      InOrderPrefix(le, b, n);
      OneSortedList(le, a[..n], b[..n]);
    }
  }

  lemma WithoutLast<T>(s: seq<T>)
    requires s != []
    ensures multiset(s[..|s| - 1]) == multiset(s) - multiset{s[|s| - 1]}
  {
    LastTaken(s);
    assert multiset(s) == multiset(s[..|s| - 1]) + multiset{s[|s| - 1]};
  }

  lemma SameLength<T>(a: seq<T>, b: seq<T>)
    requires multiset(a) == multiset(b)
    ensures |a| == |b|
  {
    assert |multiset(a)| == |a| && |multiset(b)| == |b|;
  }

  lemma LastOrBefore<T>(s: seq<T>, x: T)
    requires x in s
    ensures x == s[|s| - 1] || x in s[..|s| - 1]
  {
  }

  lemma LastIsLargest<T(!new)>(le: (T, T) -> bool, a: seq<T>, b: seq<T>, n: nat)
    requires InOrder(le, a) && InOrder(le, b) && multiset(a) == multiset(b) && |a| == |b| == n + 1 && Separates(le, a)
    ensures a[n] == b[n]
  {
    SameMembers(a, b);
    assert a[n] in b && b[n] in a;
    InOrderPrefix(le, a, n);
    InOrderPrefix(le, b, n);
    assert Separated(le, a[n], b[n]);
    LastOrBefore(a, b[n]);
    LastOrBefore(b, a[n]);
  }

  /** Sorting forgets the order of its input. */
  lemma SortingIsCanonical<T(!new)>(le: (T, T) -> bool, a: seq<T>, b: seq<T>)
    requires Linear(le) && multiset(a) == multiset(b) && Separates(le, a)
    ensures SortBy(le, a) == SortBy(le, b)
  {
    SortByIsInOrder(le, a);
    SortByIsInOrder(le, b);
    SameMembers(SortBy(le, a), a);
    forall x, y | x in SortBy(le, a) && y in SortBy(le, a) ensures Separated(le, x, y) { }
    OneSortedList(le, SortBy(le, a), SortBy(le, b));
  }

  lemma {:induction false} SameElements<T(!new)>(a: seq<T>, b: seq<T>)
    requires Unique(a) && Unique(b) && Elements(a) == Elements(b)
    ensures multiset(a) == multiset(b)
  {
    forall x ensures multiset(a)[x] == multiset(b)[x] {
      UniqueCount(a, x);
      UniqueCount(b, x);
      assert x in a <==> x in Elements(a);
      assert x in b <==> x in Elements(b);
    }
  }

  lemma {:induction false} UniqueCount<T>(s: seq<T>, x: T)
    requires Unique(s)
    ensures multiset(s)[x] == if x in s then 1 else 0
  {
    if s != [] {
      var n := |s| - 1;
      assert s == s[..n] + [s[n]];
      UniquePrefix(s, n);
      UniqueCount(s[..n], x);
    }
  }

  lemma {:induction false} CountedUnique<T(!new)>(s: seq<T>)
    requires forall x :: multiset(s)[x] <= 1
    ensures Unique(s)
  {
    if s != [] {
      var n := |s| - 1;
      assert s == s[..n] + [s[n]];
      assert multiset(s) == multiset(s[..n]) + multiset{s[n]};
      forall x ensures multiset(s[..n])[x] <= 1 { assert multiset(s)[x] <= 1; }
      CountedUnique(s[..n]);
      assert multiset(s)[s[n]] <= 1;
      assert s[n] !in multiset(s[..n]);
      UniqueAppend(s[..n], s[n]);
    }
  }

  /** Sorting keeps what is there, each as often as before. */
  lemma SortedUnique<T(!new)>(le: (T, T) -> bool, s: seq<T>)
    requires Unique(s)
    ensures Unique(SortBy(le, s)) && Elements(SortBy(le, s)) == Elements(s)
  {
    SameMembers(SortBy(le, s), s);
    forall x ensures multiset(SortBy(le, s))[x] <= 1 { UniqueCount(s, x); }
    CountedUnique(SortBy(le, s));
    assert Elements(SortBy(le, s)) == Elements(s);
  }

  /** A sublist of an ordered list is ordered. */
  lemma {:induction false} SelectionInOrder<T(!new)>(le: (T, T) -> bool, s: seq<T>, keep: T -> bool)
    requires InOrder(le, s)
    ensures InOrder(le, Selection(s, keep))
  {
    if s != [] {
      var n := |s| - 1;
      var front := s[..n];
      InOrderPrefix(le, s, n);
      SelectionInOrder(le, front, keep);
      SelectionMembers(front, keep);
      if keep(s[n]) {
        forall y | y in Selection(front, keep) ensures le(y, s[n]) { assert y in front; }
        InOrderAppend(le, Selection(s[..n], keep), s[n]);
      } else {
        assert Selection(s, keep) == Selection(s[..n], keep);
      }
    }
  }

  function Selection<T>(s: seq<T>, keep: T -> bool): seq<T> {
    if s == [] then []
    else
      var n := |s| - 1;
      Selection(s[..n], keep) + (if keep(s[n]) then [s[n]] else [])
  }

  lemma {:induction false} SelectionMembers<T(!new)>(s: seq<T>, keep: T -> bool)
    ensures forall x :: x in Selection(s, keep) <==> x in s && keep(x)
    ensures Unique(s) ==> Unique(Selection(s, keep))
  {
    if s != [] {
      var n := |s| - 1;
      assert s == s[..n] + [s[n]];
      SelectionMembers(s[..n], keep);
      if Unique(s) {
        UniquePrefix(s, n);
        if keep(s[n]) {
          UniqueAppend(Selection(s[..n], keep), s[n]);
        } else {
          assert Selection(s, keep) == Selection(s[..n], keep);
        }
      }
    }
  }

  lemma {:induction false} SelectionAppend<T>(a: seq<T>, b: seq<T>, keep: T -> bool)
    ensures Selection(a + b, keep) == Selection(a, keep) + Selection(b, keep)
  {
    if b == [] {
      assert a + b == a;
    } else {
      SelectionAppend(a, b[..|b| - 1], keep);
      assert (a + b)[..|a + b| - 1] == a + b[..|b| - 1];
    }
  }

  lemma SelectionWithout<T>(s: seq<T>, i: nat, keep: T -> bool)
    requires i < |s|
    ensures multiset(Selection(s, keep)) ==
      multiset(Selection(s[..i] + s[i + 1..], keep)) + (if keep(s[i]) then multiset{s[i]} else multiset{})
  {
    Around(s, i);
    SelectionOfParts(s[..i], s[i], s[i + 1..], keep);
  }

  lemma Around<T>(s: seq<T>, i: nat)
    requires i < |s|
    ensures s == s[..i] + ([s[i]] + s[i + 1..])
  {
  }

  lemma SelectionOfParts<T>(a: seq<T>, x: T, b: seq<T>, keep: T -> bool)
    ensures multiset(Selection(a + ([x] + b), keep)) ==
      multiset(Selection(a + b, keep)) + (if keep(x) then multiset{x} else multiset{})
  {
    SelectionAppend(a, [x] + b, keep);
    SelectionAppend([x], b, keep);
    SelectionAppend(a, b, keep);
    SelectionOfOne(x, keep);
  }

  lemma SelectionOfOne<T>(x: T, keep: T -> bool)
    ensures Selection([x], keep) == if keep(x) then [x] else []
  {
    assert [x][..0] == [];
  }

  lemma {:induction false} SelectionPermutation<T>(a: seq<T>, b: seq<T>, keep: T -> bool)
    requires multiset(a) == multiset(b)
    ensures multiset(Selection(a, keep)) == multiset(Selection(b, keep))
  {
    if a == [] {
      assert |multiset(b)| == 0;
    } else {
      var n := |a| - 1;
      assert a[n] in multiset(b);
      var i :| 0 <= i < |b| && b[i] == a[n];
      Removed(a, n);
      Removed(b, i);
      assert a[..n] + a[n + 1..] == a[..n];
      SelectionPermutation(a[..n], b[..i] + b[i + 1..], keep);
      SelectionWithout(a, n, keep);
      SelectionWithout(b, i, keep);
    }
  }

  function Mapped<T, U>(f: T -> U, s: seq<T>): (r: seq<U>)
    ensures |r| == |s| && forall i :: 0 <= i < |s| ==> r[i] == f(s[i])
  {
    seq(|s|, i requires 0 <= i < |s| => f(s[i]))
  }

  lemma MappedAppend<T, U>(f: T -> U, a: seq<T>, b: seq<T>)
    ensures Mapped(f, a + b) == Mapped(f, a) + Mapped(f, b)
  {
  }

  lemma MappedSnoc<T, U>(f: T -> U, s: seq<T>, x: T)
    ensures multiset(Mapped(f, s + [x])) == multiset(Mapped(f, s)) + multiset{f(x)}
  {
    assert Mapped(f, s + [x]) == Mapped(f, s) + [f(x)];
  }

  lemma {:induction false} MappedPermutation<T, U>(f: T -> U, a: seq<T>, b: seq<T>)
    requires multiset(a) == multiset(b)
    ensures multiset(Mapped(f, a)) == multiset(Mapped(f, b))
  {
    if a == [] {
      assert |multiset(b)| == 0;
    } else {
      var n := |a| - 1;
      assert a[n] in multiset(b);
      var i :| 0 <= i < |b| && b[i] == a[n];
      Removed(a, n);
      Removed(b, i);
      assert a[..n] + a[n + 1..] == a[..n];
      MappedPermutation(f, a[..n], b[..i] + b[i + 1..]);
      MappedWithout(f, a, n);
      MappedWithout(f, b, i);
    }
  }

  lemma Removed<T>(s: seq<T>, i: nat)
    requires i < |s|
    ensures multiset(s) == multiset(s[..i] + s[i + 1..]) + multiset{s[i]}
    ensures multiset(s[..i] + s[i + 1..]) == multiset(s) - multiset{s[i]}
  {
    assert s == s[..i] + [s[i]] + s[i + 1..];
  }

  lemma MappedWithout<T, U>(f: T -> U, s: seq<T>, i: nat)
    requires i < |s|
    ensures multiset(Mapped(f, s)) == multiset(Mapped(f, s[..i] + s[i + 1..])) + multiset{f(s[i])}
  {
    Removed(Mapped(f, s), i);
    assert Mapped(f, s)[..i] + Mapped(f, s)[i + 1..] == Mapped(f, s[..i] + s[i + 1..]);
  }

  lemma SortedLonger<T>(le: (T, T) -> bool, s: seq<T>, x: T)
    requires SortBy(le, s) == s && (s == [] || le(s[|s| - 1], x))
    ensures SortBy(le, s + [x]) == s + [x]
  {
    assert (s + [x])[..|s|] == s;
  }

  lemma SortedStays<T>(le: (T, T) -> bool, s: seq<T>)
    requires InOrder(le, s)
    ensures SortBy(le, s) == s
  {
    for n := 0 to |s|
      invariant SortBy(le, s[..n]) == s[..n]
    {
      assert n > 0 ==> OrderedAt(le, s, n - 1, n);
      SortedLonger(le, s[..n], s[n]);
      TakeNext(s, n);
    }
    TakeAll(s);
  }

  // ---------- Sort keys ----------

  /** Python compares strings by code points and tuples field by field; an integer is a field of one number. */
  function CompareField(a: seq<int>, b: seq<int>): int {
    if a == [] && b == [] then 0
    else if a == [] then -1
    else if b == [] then 1
    else if a[0] != b[0] then (if a[0] < b[0] then -1 else 1)
    else CompareField(a[1..], b[1..])
  }

  type Key = seq<seq<int>>

  function Compare(a: Key, b: Key): int {
    if a == [] && b == [] then 0
    else if a == [] then -1
    else if b == [] then 1
    else
      var first := CompareField(a[0], b[0]);
      if first != 0 then first else Compare(a[1..], b[1..])
  }

  predicate AtMost(a: Key, b: Key) {
    Compare(a, b) <= 0
  }

  function Text(s: string): seq<int> {
    seq(|s|, i requires 0 <= i < |s| => s[i] as int)
  }

  /** Text order, said without keys: a prefix comes first, otherwise the first difference decides. */
  ghost predicate TextOrder(a: string, b: string) {
    a <= b || exists k :: DecidedAt(a, b, k)
  }

  predicate DecidedAt(a: string, b: string, k: int) {
    0 <= k < |a| && k < |b| && a[..k] == b[..k] && a[k] < b[k]
  }

  lemma {:induction false} FieldIsTextOrder(a: string, b: string)
    ensures CompareField(Text(a), Text(b)) <= 0 <==> TextOrder(a, b)
    ensures CompareField(Text(a), Text(b)) == 0 <==> a == b
  {
    if a != [] && b != [] {
      FieldIsTextOrder(a[1..], b[1..]);
      assert Text(a)[1..] == Text(a[1..]) && Text(b)[1..] == Text(b[1..]);
      FirstLetter(a, b);
    }
  }

  lemma FirstLetter(a: string, b: string)
    requires a != [] && b != []
    ensures TextOrder(a, b) <==> a[0] < b[0] || (a[0] == b[0] && TextOrder(a[1..], b[1..]))
    ensures a == b <==> a[0] == b[0] && a[1..] == b[1..]
  {
    if k :| DecidedAt(a, b, k) {
      if k > 0 {
        assert a[..k][0] == b[..k][0];
        assert a[1..][..k - 1] == a[..k][1..] && b[1..][..k - 1] == b[..k][1..];
        assert DecidedAt(a[1..], b[1..], k - 1);
      }
    }
    if a[0] < b[0] { assert DecidedAt(a, b, 0); }
    if a[0] == b[0] {
      if k :| DecidedAt(a[1..], b[1..], k) {
        assert a[..k + 1] == [a[0]] + a[1..][..k] && b[..k + 1] == [b[0]] + b[1..][..k];
        assert DecidedAt(a, b, k + 1);
      }
      assert a == [a[0]] + a[1..] && b == [b[0]] + b[1..];
    }
  }

  lemma OneField(a: seq<int>, b: seq<int>)
    ensures Compare([a], [b]) == CompareField(a, b)
  {
    assert [a][1..] == [b][1..] == [];
    assert Compare([a][1..], [b][1..]) == 0;
  }

  lemma KeyIsTextOrder(a: string, b: string)
    ensures AtMost([Text(a)], [Text(b)]) <==> TextOrder(a, b)
  {
    FieldIsTextOrder(a, b);
    OneField(Text(a), Text(b));
  }

  lemma TextIsInjective(a: string, b: string)
    requires Text(a) == Text(b)
    ensures a == b
  {
    assert |a| == |Text(a)| == |Text(b)| == |b|;
    forall i | 0 <= i < |a| ensures a[i] == b[i] { assert Text(a)[i] == Text(b)[i]; }
  }

  lemma {:induction false} FieldOrder(a: seq<int>, b: seq<int>)
    ensures CompareField(a, b) == -CompareField(b, a)
    ensures CompareField(a, b) == 0 <==> a == b
  {
    if a != [] && b != [] && a[0] == b[0] {
      FieldOrder(a[1..], b[1..]);
      assert a == [a[0]] + a[1..] && b == [b[0]] + b[1..];
    }
  }

  lemma {:induction false} FieldChain(a: seq<int>, b: seq<int>, c: seq<int>)
    requires CompareField(a, b) <= 0 && CompareField(b, c) <= 0
    ensures CompareField(a, c) <= 0
    ensures CompareField(a, c) == 0 ==> CompareField(a, b) == 0 && CompareField(b, c) == 0
  {
    if a != [] && b != [] && c != [] && a[0] == b[0] == c[0] { FieldChain(a[1..], b[1..], c[1..]); }
  }

  lemma {:induction false} KeyOrder(a: Key, b: Key)
    ensures Compare(a, b) == -Compare(b, a)
    ensures Compare(a, b) == 0 <==> a == b
  {
    if a != [] && b != [] {
      FieldOrder(a[0], b[0]);
      KeyOrder(a[1..], b[1..]);
      assert a == [a[0]] + a[1..] && b == [b[0]] + b[1..];
    }
  }

  lemma {:induction false} KeyChain(a: Key, b: Key, c: Key)
    requires AtMost(a, b) && AtMost(b, c)
    ensures AtMost(a, c)
  {
    if a != [] && b != [] && c != [] {
      FieldOrder(a[0], b[0]);
      FieldOrder(b[0], c[0]);
      FieldChain(a[0], b[0], c[0]);
      if CompareField(a[0], b[0]) == 0 && CompareField(b[0], c[0]) == 0 { KeyChain(a[1..], b[1..], c[1..]); }
    }
  }

  /** Keys of equal length compare at the first field in which they differ. */
  predicate DecidesAt(a: Key, b: Key, k: int)
    requires |a| == |b|
  {
    0 <= k < |a| && a[k] != b[k] && forall j :: 0 <= j < k ==> a[j] == b[j]
  }

  lemma KeyTail(a: Key, b: Key, k: nat)
    requires |a| == |b| && k < |a|
    ensures AtMost(a[k..], b[k..]) <==>
      if a[k] != b[k] then CompareField(a[k], b[k]) <= 0 else AtMost(a[k + 1..], b[k + 1..])
  {
    DropNext(a, k);
    DropNext(b, k);
    FieldOrder(a[k], b[k]);
  }

  lemma {:induction false} DecidedFrom(a: Key, b: Key, k: nat, n: nat)
    requires |a| == |b| && k <= n && DecidesAt(a, b, n)
    ensures AtMost(a[k..], b[k..]) <==> CompareField(a[n], b[n]) <= 0
    decreases n - k
  {
    KeyTail(a, b, k);
    if k < n { DecidedFrom(a, b, k + 1, n); }
  }

  lemma FirstDifferenceDecides(a: Key, b: Key, n: nat)
    requires |a| == |b| && DecidesAt(a, b, n)
    ensures AtMost(a, b) <==> CompareField(a[n], b[n]) <= 0
  {
    DecidedFrom(a, b, 0, n);
    assert a[0..] == a && b[0..] == b;
  }

  lemma NumbersCompare(x: int, y: int)
    ensures CompareField([x], [y]) <= 0 <==> x <= y
  {
    assert [x][1..] == [y][1..] == [];
    assert CompareField([x][1..], [y][1..]) == 0;
  }

  function ByKey<T>(key: T -> Key): (T, T) -> bool {
    (x: T, y: T) => AtMost(key(x), key(y))
  }

  lemma KeysAreLinear<T(!new)>(key: T -> Key)
    ensures Linear(ByKey(key))
  {
    forall x, y ensures Connected(ByKey(key), x, y) { KeyOrder(key(x), key(y)); }
    forall x, y, z ensures Chains(ByKey(key), x, y, z) {
      if AtMost(key(x), key(y)) && AtMost(key(y), key(z)) { KeyChain(key(x), key(y), key(z)); }
    }
  }
}
