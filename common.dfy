/**
 * Shared vocabulary of the model: optional values, filter criteria, sums in
 * the order `reduce` adds, the order-preserving `filter`, the stable
 * insertion that `[...prev, x].sort(cmp)` amounts to on a list that is
 * already sorted, and the rounding done by `Math.round` and `Math.ceil`.
 */
module Common {

  datatype Option<+T> = None | Some(value: T) {
    function GetOr(default: T): T {
      match this
      case Some(v) => v
      case None => default
    }
  }

  /** A filter criterion: the sentinel "all" switches the criterion off. */
  datatype Criterion<T(==)> = All | Only(value: T) {
    predicate Accepts(x: T) {
      All? || value == x
    }
  }

  /** Why a handler refused to change the state (the source shows an alert). */
  datatype Outcome = Done | MissingField | InvalidAmount

  // ---------------------------------------------------------------------
  // Sums, as `xs.reduce((acc, x) => acc + f(x), 0)` computes them.

  function SumOf<T>(s: seq<T>, f: T -> int): int {
    if s == [] then 0 else SumOf(s[..|s| - 1], f) + f(s[|s| - 1])
  }

  lemma {:induction false} SumOfAppend<T>(a: seq<T>, b: seq<T>, f: T -> int)
    ensures SumOf(a + b, f) == SumOf(a, f) + SumOf(b, f)
  {
    if b == [] {
      assert a + b == a;
    } else {
      var b' := b[..|b| - 1];
      assert (a + b)[..|a + b| - 1] == a + b';
      SumOfAppend(a, b', f);
    }
  }

  lemma {:induction false} SumOfCons<T>(x: T, s: seq<T>, f: T -> int)
    ensures SumOf([x] + s, f) == f(x) + SumOf(s, f)
  {
    SumOfAppend([x], s, f);
    assert [x][..0] == [];
  }

  /** Reordering the addends does not change a sum. */
  lemma {:induction false} SumOfPermutation<T>(a: seq<T>, b: seq<T>, f: T -> int)
    requires multiset(a) == multiset(b)
    ensures SumOf(a, f) == SumOf(b, f)
    decreases |a|
  {
    if a != [] {
      var x := a[0];
      assert x in multiset(b);
      var k :| 0 <= k < |b| && b[k] == x;
      var b' := b[..k] + b[k + 1..];
      RemoveMatching(a, b, k);
      SumOfPermutation(a[1..], b', f);
      assert a == [x] + a[1..];
      SumOfCons(x, a[1..], f);
      SumOfSplitAt(b, k, f);
    }
  }

  /** Taking the first element out of one of two permutations of each other, and a copy of it out of the other, leaves permutations. */
  lemma {:induction false} RemoveMatching<T>(a: seq<T>, b: seq<T>, k: int)
    requires multiset(a) == multiset(b) && a != [] && 0 <= k < |b| && b[k] == a[0]
    ensures multiset(a[1..]) == multiset(b[..k] + b[k + 1..])
  {
    var x, rest := a[0], b[..k] + b[k + 1..];
    assert b == b[..k] + [x] + b[k + 1..];
    assert a == [x] + a[1..];
    assert multiset(a) == multiset(a[1..]) + multiset{x};
    assert multiset(b) == multiset(b[..k]) + multiset{x} + multiset(b[k + 1..]);
    assert multiset(rest) == multiset(b[..k]) + multiset(b[k + 1..]);
    assert multiset(a[1..]) + multiset{x} == multiset(rest) + multiset{x};
    calc {
      multiset(a[1..]);
      (multiset(a[1..]) + multiset{x}) - multiset{x};
      (multiset(rest) + multiset{x}) - multiset{x};
      multiset(rest);
    }
  }

  /** Taking one addend out of a sum. */
  lemma {:induction false} SumOfSplitAt<T>(b: seq<T>, k: int, f: T -> int)
    requires 0 <= k < |b|
    ensures SumOf(b, f) == SumOf(b[..k] + b[k + 1..], f) + f(b[k])
  {
    var p, x, q := b[..k], b[k], b[k + 1..];
    assert b == p + [x] + q;
    assert SumOf([x], f) == f(x) by { assert [x][..0] == []; }
    calc {
      SumOf(b, f);
      { SumOfAppend(p + [x], q, f); }
      SumOf(p + [x], f) + SumOf(q, f);
      { SumOfAppend(p, [x], f); }
      SumOf(p, f) + f(x) + SumOf(q, f);
      { SumOfAppend(p, q, f); }
      SumOf(p + q, f) + f(x);
    }
  }

  // ---------------------------------------------------------------------
  // `xs.filter(p)`.

  function Filter<T>(s: seq<T>, p: T -> bool): (r: seq<T>)
    ensures |r| <= |s|
    ensures forall x :: x in r ==> x in s && p(x)
  {
    if s == [] then []
    else (if p(s[0]) then [s[0]] else []) + Filter(s[1..], p)
  }

  /** The filter keeps every element that satisfies the predicate, as often as it occurs, and no other. */
  lemma {:induction false} FilterCounts<T>(s: seq<T>, p: T -> bool, x: T)
    ensures multiset(Filter(s, p))[x] == if p(x) then multiset(s)[x] else 0
  {
    if s != [] {
      FilterCounts(s[1..], p, x);
      assert s == [s[0]] + s[1..];
    }
  }

  /** Filtering a concatenation filters each part: the order of the kept elements is the order in the input. */
  lemma {:induction false} FilterAppend<T>(a: seq<T>, b: seq<T>, p: T -> bool)
    ensures Filter(a + b, p) == Filter(a, p) + Filter(b, p)
  {
    if a == [] {
      assert a + b == b;
    } else {
      assert (a + b)[0] == a[0];
      assert (a + b)[1..] == a[1..] + b;
      FilterAppend(a[1..], b, p);
    }
  }

  /** A criterion that everything meets keeps the whole sequence. */
  lemma {:induction false} FilterKeepsAll<T>(s: seq<T>, p: T -> bool)
    requires forall i :: 0 <= i < |s| ==> p(s[i])
    ensures Filter(s, p) == s
  {
    if s != [] {
      FilterKeepsAll(s[1..], p);
    }
  }

  /** Splitting a sum by a predicate p and its negation q: the kept part plus the dropped part. */
  lemma {:induction false} SumOfFilterSplit<T>(s: seq<T>, p: T -> bool, q: T -> bool, f: T -> int)
    requires forall x :: q(x) == !p(x)
    ensures SumOf(s, f) == SumOf(Filter(s, p), f) + SumOf(Filter(s, q), f)
  {
    if s != [] {
      SumOfFilterSplit(s[1..], p, q, f);
      SumOfCons(s[0], s[1..], f);
      assert s == [s[0]] + s[1..];
      if p(s[0]) {
        assert Filter(s, p) == [s[0]] + Filter(s[1..], p);
        assert Filter(s, q) == Filter(s[1..], q);
        SumOfCons(s[0], Filter(s[1..], p), f);
      } else {
        assert Filter(s, q) == [s[0]] + Filter(s[1..], q);
        assert Filter(s, p) == Filter(s[1..], p);
        SumOfCons(s[0], Filter(s[1..], q), f);
      }
    }
  }

  /** Filtering a sorted list leaves it sorted. */
  lemma {:induction false} FilterSorted<T>(s: seq<T>, p: T -> bool, key: T -> int)
    requires SortedBy(s, key)
    ensures SortedBy(Filter(s, p), key)
  {
    if s != [] {
      var t := Filter(s[1..], p);
      FilterSorted(s[1..], p, key);
      if p(s[0]) {
        var r := [s[0]] + t;
        forall i, j | 0 <= i < j < |r| ensures key(r[i]) <= key(r[j]) {
          if i == 0 {
            assert r[j] in s[1..];
            var k :| 0 <= k < |s[1..]| && s[1..][k] == r[j];
            assert s[k + 1] == r[j];
          } else {
            assert r[i] == t[i - 1] && r[j] == t[j - 1];
          }
        }
      }
    }
  }

  /** Filtering by p and then by q is filtering by r when r means "p and q". */
  lemma {:induction false} FilterFilter<T>(s: seq<T>, p: T -> bool, q: T -> bool, r: T -> bool)
    requires forall x :: r(x) == (p(x) && q(x))
    ensures Filter(Filter(s, p), q) == Filter(s, r)
  {
    if s != [] {
      var t := Filter(s[1..], p);
      FilterFilter(s[1..], p, q, r);
      if p(s[0]) {
        var u := [s[0]] + t;
        assert Filter(s, p) == u;
        assert u[0] == s[0] && u[1..] == t;
        assert Filter(u, q) == (if q(s[0]) then [s[0]] else []) + Filter(t, q);
      } else {
        assert Filter(s, p) == t;
      }
    }
  }

  /** Filtering one more element adds its value to the filtered sum when it passes, and nothing otherwise. */
  lemma SumOfFilterSnoc<T>(s: seq<T>, x: T, p: T -> bool, f: T -> int)
    ensures SumOf(Filter(s + [x], p), f) == SumOf(Filter(s, p), f) + (if p(x) then f(x) else 0)
  {
    FilterAppend(s, [x], p);
    assert [x][1..] == [];
    assert Filter([x], p) == if p(x) then [x] else [];
    SumOfAppend(Filter(s, p), Filter([x], p), f);
    assert SumOf([x], f) == f(x) by {
      assert [x][..0] == [];
    }
  }

  /** A sum of smaller addends is smaller. */
  lemma {:induction false} SumOfLe<T>(s: seq<T>, f: T -> int, g: T -> int)
    requires forall i :: 0 <= i < |s| ==> f(s[i]) <= g(s[i])
    ensures SumOf(s, f) <= SumOf(s, g)
  {
    if s != [] {
      SumOfLe(s[..|s| - 1], f, g);
    }
  }

  // ---------------------------------------------------------------------
  // Sorted insertion. `[...prev, x].sort(cmp)` is a stable sort; applied to a
  // list that is already sorted it places x after every element that
  // compares equal to it and before every larger one.

  predicate SortedBy<T>(s: seq<T>, key: T -> int) {
    forall i, j :: 0 <= i < j < |s| ==> key(s[i]) <= key(s[j])
  }

  function InsertBy<T>(s: seq<T>, x: T, key: T -> int): (r: seq<T>)
    ensures |r| == |s| + 1
  {
    if s == [] then [x]
    else if key(x) < key(s[0]) then [x] + s
    else [s[0]] + InsertBy(s[1..], x, key)
  }

  /** The new element lands after the leading elements whose key is at most its own, before the first larger one. */
  lemma {:induction false} InsertByPosition<T>(s: seq<T>, x: T, key: T -> int) returns (k: nat)
    ensures k <= |s| && InsertBy(s, x, key) == s[..k] + [x] + s[k..]
    ensures forall i :: 0 <= i < k ==> key(s[i]) <= key(x)
    ensures k < |s| ==> key(x) < key(s[k])
  {
    if s == [] || key(x) < key(s[0]) {
      k := 0;
    } else {
      var t := s[1..];
      var k' := InsertByPosition(t, x, key);
      k := k' + 1;
      calc {
        InsertBy(s, x, key);
        [s[0]] + InsertBy(t, x, key);
        [s[0]] + (t[..k'] + [x] + t[k'..]);
        { assert s[..k] == [s[0]] + t[..k'] && s[k..] == t[k'..]; }
        s[..k] + [x] + s[k..];
      }
      forall i | 0 <= i < k ensures key(s[i]) <= key(x) {
        if i > 0 { assert s[i] == t[i - 1]; }
      }
    }
  }

  /** Inserting into a sorted list keeps it sorted, and the new element follows every element with an equal key. */
  lemma InsertBySorted<T>(s: seq<T>, x: T, key: T -> int) returns (k: nat)
    requires SortedBy(s, key)
    ensures SortedBy(InsertBy(s, x, key), key)
    ensures k <= |s| && InsertBy(s, x, key) == s[..k] + [x] + s[k..]
    ensures forall i :: 0 <= i < k ==> key(s[i]) <= key(x)
    ensures forall i :: k <= i < |s| ==> key(x) < key(s[i])
  {
    k := InsertByPosition(s, x, key);
    var r := InsertBy(s, x, key);
    forall i, j | 0 <= i < j < |r| ensures key(r[i]) <= key(r[j]) {
      if j > k && i == k {
        assert key(s[k]) <= key(s[j - 1]);
      }
    }
  }

  // ---------------------------------------------------------------------
  // Rounding.

  /** `Math.round`: the nearest integer, halves rounded up. */
  function Round(x: real): (r: int)
    ensures x - 0.5 < r as real <= x + 0.5
  {
    (x + 0.5).Floor
  }

  /** `Math.ceil(a / b)` for a positive divisor: the least r with a <= r * b. */
  function CeilDiv(a: int, b: int): (r: int)
    requires b > 0
    ensures (r - 1) * b < a <= r * b
  {
    var q := (-a) / b;
    assert -a == q * b + (-a) % b;
    -q
  }
}
