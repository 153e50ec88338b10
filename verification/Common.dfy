/** Small vocabulary shared by every module. */
module Common {

  datatype Option<+T> = None | Some(value: T)

  datatype Result<+T, +E> = Ok(value: T) | Err(error: E)

  /** A loop's prefix grows by the element it has just read. */
  lemma TakeNext<T>(s: seq<T>, n: nat)
    requires n < |s|
    ensures s[..n + 1] == s[..n] + [s[n]] && s[..n + 1][..n] == s[..n]
  {
  }

  lemma FrontOfSum<T>(a: seq<T>, b: seq<T>)
    requires b != []
    ensures (a + b)[..|a + b| - 1] == a + b[..|b| - 1] && (a + b)[|a + b| - 1] == b[|b| - 1]
  {
  }

  lemma Reassociated<T>(a: seq<T>, b: seq<T>, c: seq<T>)
    ensures a + (b + c) == (a + b) + c
  {
  }

  lemma LastTaken<T>(s: seq<T>)
    requires s != []
    ensures s == s[..|s| - 1] + [s[|s| - 1]]
  {
  }

  lemma TakeAll<T>(s: seq<T>)
    ensures s[..|s|] == s
  {
  }

  /** What a loop has still to read loses the element it reads next. */
  lemma DropNext<T>(s: seq<T>, n: nat)
    requires n < |s|
    ensures s[n..] == [s[n]] + s[n + 1..] && s[n..][1..] == s[n + 1..]
  {
  }

  function Least(a: nat, b: nat): nat {
    if a < b then a else b
  }

  function Elements<T>(s: seq<T>): set<T> {
    set x | x in s
  }

  /** Where x stands last in s. */
  function Position<T(==)>(s: seq<T>, x: T): (p: nat)
    requires x in s
    ensures p < |s| && s[p] == x
  {
    if s[|s| - 1] == x then |s| - 1 else Position(s[..|s| - 1], x)
  }

  predicate Unique<T(==)>(s: seq<T>) {
    forall i, j :: 0 <= i < j < |s| ==> Differ(s, i, j)
  }

  predicate Differ<T(==)>(s: seq<T>, i: int, j: int)
    requires 0 <= i < |s| && 0 <= j < |s|
  {
    s[i] != s[j]
  }

  lemma UniqueAppend<T>(s: seq<T>, x: T)
    requires Unique(s) && x !in s
    ensures Unique(s + [x])
  {
    forall i, j | 0 <= i < j < |s| + 1 ensures Differ(s + [x], i, j) {
      if j < |s| { assert Differ(s, i, j); } else { assert s[i] in s; }
    }
  }

  lemma UniquePrefix<T>(s: seq<T>, n: nat)
    requires Unique(s) && n < |s|
    ensures Unique(s[..n]) && s[n] !in s[..n]
  {
    forall i, j | 0 <= i < j < n ensures Differ(s[..n], i, j) { assert Differ(s, i, j); }
    forall i | 0 <= i < n ensures s[..n][i] != s[n] { assert Differ(s, i, n); }
  }

  /** Equal elements of a duplicate-free sequence stand in the same place. */
  lemma SamePlace<T>(s: seq<T>, i: nat, j: nat)
    requires Unique(s) && i < |s| && j < |s|
    ensures s[i] == s[j] <==> i == j
  {
    if i < j { assert Differ(s, i, j); } else if j < i { assert Differ(s, j, i); }
  }

  /** Python's `dict.fromkeys(s)` read as a sequence: first occurrences, in order. */
  function Distinct<T(==)>(s: seq<T>): (r: seq<T>)
    ensures Elements(r) == Elements(s) && Unique(r)
  {
    if s == [] then []
    else
      var rest := Distinct(s[..|s| - 1]);
      var last := s[|s| - 1];
      assert s == s[..|s| - 1] + [last];
      assert Elements(s) == Elements(rest) + {last};
      if last in rest then rest
      else
        UniqueAppend(rest, last);
        rest + [last]
  }

  lemma {:induction false} UniqueLength<T>(s: seq<T>)
    requires Unique(s)
    ensures |Elements(s)| == |s|
  {
    if s != [] {
      var front, last := s[..|s| - 1], s[|s| - 1];
      UniquePrefix(s, |s| - 1);
      UniqueLength(front);
      assert Elements(s) == Elements(front) + {last};
    }
  }

  lemma {:induction false} ElementsFew<T>(s: seq<T>)
    ensures |Elements(s)| <= |s|
  {
    if s == [] {
      assert Elements(s) == {};
    } else {
      var front, last := s[..|s| - 1], s[|s| - 1];
      ElementsFew(front);
      assert Elements(s) == Elements(front) + {last};
    }
  }

  lemma MapSize<K, V>(m: map<K, V>, k: K, v: V)
    ensures |m[k := v]| == |m| + (if k in m then 0 else 1)
    ensures |m - {k}| <= |m|
  {
    assert m[k := v].Keys == m.Keys + {k} && |m[k := v].Keys| == |m[k := v]|;
    if k in m { assert m[k := v].Keys == m.Keys; }
    assert (m - {k}).Keys == m.Keys - {k} && |(m - {k}).Keys| == |m - {k}|;
  }

  lemma UnionStep<T>(base: set<T>, a: set<T>, x: T)
    ensures (base + a) + {x} == base + (a + {x})
  {
  }

  lemma KeysGrow<K, V>(m: map<K, V>, k: K, v: V)
    ensures m[k := v].Keys == m.Keys + {k}
  {
  }

  lemma KeysShrink<K, V>(m: map<K, V>, k: K, rest: set<K>)
    requires m.Keys == rest + {k} && k !in rest
    ensures (m - {k}).Keys == rest
  {
  }

  lemma MapShrinks<K, V>(m: map<K, V>, k: K)
    requires k in m
    ensures |m - {k}| == |m| - 1
  {
    assert (m - {k}).Keys == m.Keys - {k} && |(m - {k}).Keys| == |m - {k}| && |m.Keys| == |m|;
  }

  lemma SubsetSize<T>(a: set<T>, b: set<T>)
    requires a <= b
    ensures |a| <= |b|
    ensures |a| == |b| ==> a == b
  {
    assert b == a + (b - a);
  }
}
