/**
 * The LINQ operators the repositories and services use, as functions on
 * sequences. A table of the store is a sequence in key (insertion) order, so
 * `FirstOrDefault` is the first match in that order.
 */
module Linq {
  import opened Options

  /** `Where`: the elements that satisfy `p`, in their original order. */
  function Where<T>(s: seq<T>, p: T -> bool): (r: seq<T>)
    ensures |r| <= |s|
    ensures forall x | x in r :: x in s && p(x)
    ensures forall x | x in s && p(x) :: x in r
    ensures (forall i | 0 <= i < |s| :: p(s[i])) ==> r == s
  {
    if s == [] then [] else (if p(s[0]) then [s[0]] else []) + Where(s[1..], p)
  }

  /** Position of the first element that satisfies `p`. */
  function FirstIndex<T>(s: seq<T>, p: T -> bool): (r: Option<nat>)
    ensures r.Some? ==> r.value < |s| && p(s[r.value])
    ensures r.Some? ==> forall j | 0 <= j < r.value :: !p(s[j])
    ensures r.None? <==> forall j | 0 <= j < |s| :: !p(s[j])
  {
    if s == [] then None
    else if p(s[0]) then Some(0)
    else match FirstIndex(s[1..], p)
      case None => None
      case Some(k) => Some(k + 1)
  }

  /** `FirstOrDefault` with a predicate: the first element satisfying `p`, if any. */
  function FirstOrDefault<T>(s: seq<T>, p: T -> bool): (r: Option<T>)
    ensures r.Some? ==> r.value in s && p(r.value)
    ensures r.None? <==> forall j | 0 <= j < |s| :: !p(s[j])
    ensures r.Some? <==> FirstIndex(s, p).Some?
    ensures r.Some? ==> r.value == s[FirstIndex(s, p).value]
  {
    match FirstIndex(s, p)
    case None => None
    case Some(k) => Some(s[k])
  }

  /** Two sequences of one length on which `p` holds at the same positions have the same first match. */
  lemma {:induction false} FirstIndexSamePositions<T>(a: seq<T>, b: seq<T>, p: T -> bool)
    requires |a| == |b|
    requires forall j | 0 <= j < |a| :: p(a[j]) == p(b[j])
    ensures FirstIndex(a, p) == FirstIndex(b, p)
  {
    if a != [] && !p(a[0]) {
      assert forall j | 0 <= j < |a[1..]| :: a[1..][j] == a[j + 1] && b[1..][j] == b[j + 1];
      FirstIndexSamePositions(a[1..], b[1..], p);
    }
  }

  /** Appending a match to a sequence without one makes the appended element the first match. */
  lemma FirstOrDefaultAppendToMiss<T>(s: seq<T>, x: T, p: T -> bool)
    requires FirstOrDefault(s, p).None? && p(x)
    ensures FirstOrDefault(s + [x], p) == Some(x)
  {
    assert (s + [x])[|s|] == x;
    assert forall j | 0 <= j < |s| :: (s + [x])[j] == s[j];
  }

  /** `Any` with a predicate. */
  function Any<T>(s: seq<T>, p: T -> bool): (r: bool)
    ensures r <==> exists j | 0 <= j < |s| :: p(s[j])
  {
    FirstIndex(s, p).Some?
  }

  /** `Select`: one image per element, in order. */
  function Select<T, U>(s: seq<T>, f: T -> U): (r: seq<U>)
    ensures |r| == |s|
    ensures forall i | 0 <= i < |s| :: r[i] == f(s[i])
  {
    seq(|s|, i requires 0 <= i < |s| => f(s[i]))
  }

  /** `Sum` of an integer projection (summed from the back, as a loop would). */
  function SumInt<T>(s: seq<T>, f: T -> int): int
  {
    if s == [] then 0 else SumInt(s[..|s| - 1], f) + f(s[|s| - 1])
  }

  /** `Sum` of a money-valued projection. */
  function SumReal<T>(s: seq<T>, f: T -> real): real
  {
    if s == [] then 0.0 else SumReal(s[..|s| - 1], f) + f(s[|s| - 1])
  }

  lemma {:induction false} SumIntAppend<T>(a: seq<T>, b: seq<T>, f: T -> int)
    ensures SumInt(a + b, f) == SumInt(a, f) + SumInt(b, f)
  {
    if b == [] {
      assert a + b == a;
    } else {
      assert (a + b)[..|a + b| - 1] == a + b[..|b| - 1];
      SumIntAppend(a, b[..|b| - 1], f);
    }
  }

  lemma {:induction false} SumRealAppend<T>(a: seq<T>, b: seq<T>, f: T -> real)
    ensures SumReal(a + b, f) == SumReal(a, f) + SumReal(b, f)
  {
    if b == [] {
      assert a + b == a;
    } else {
      assert (a + b)[..|a + b| - 1] == a + b[..|b| - 1];
      SumRealAppend(a, b[..|b| - 1], f);
    }
  }

  /** Sums of two equally long sequences agree when their terms agree position by position. */
  lemma {:induction false} SumIntPointwise<T, U>(a: seq<T>, f: T -> int, b: seq<U>, g: U -> int)
    requires |a| == |b|
    requires forall i | 0 <= i < |a| :: f(a[i]) == g(b[i])
    ensures SumInt(a, f) == SumInt(b, g)
  {
    if a != [] {
      var n := |a| - 1;
      assert forall i | 0 <= i < n :: a[..n][i] == a[i] && b[..n][i] == b[i];
      SumIntPointwise(a[..n], f, b[..n], g);
    }
  }

  lemma {:induction false} SumRealPointwise<T, U>(a: seq<T>, f: T -> real, b: seq<U>, g: U -> real)
    requires |a| == |b|
    requires forall i | 0 <= i < |a| :: f(a[i]) == g(b[i])
    ensures SumReal(a, f) == SumReal(b, g)
  {
    if a != [] {
      var n := |a| - 1;
      assert forall i | 0 <= i < n :: a[..n][i] == a[i] && b[..n][i] == b[i];
      SumRealPointwise(a[..n], f, b[..n], g);
    }
  }

  /** `Skip(n)`: a negative count skips nothing, a count past the end leaves nothing. */
  function Skip<T>(s: seq<T>, n: int): (r: seq<T>)
    ensures n <= 0 ==> r == s
    ensures 0 <= n <= |s| ==> r == s[n..]
    ensures n >= |s| ==> r == []
  {
    if n <= 0 then s else if n >= |s| then [] else s[n..]
  }

  /** `Take(n)`: a non-positive count takes nothing. */
  function Take<T>(s: seq<T>, n: int): (r: seq<T>)
    ensures |r| <= |s| && (n >= 0 ==> |r| <= n)
    ensures n <= 0 ==> r == []
    ensures 0 <= n <= |s| ==> r == s[..n]
    ensures n >= |s| ==> r == s
  {
    if n <= 0 then [] else if n >= |s| then s else s[..n]
  }

  /** The keys never increase from left to right. */
  ghost predicate SortedDescending<T>(s: seq<T>, key: T -> int)
  {
    forall i, j | 0 <= i < j < |s| :: key(s[i]) >= key(s[j])
  }

  /**
   * Inserts `x` into a sequence sorted by descending key, before the first
   * element whose key is not greater than its own.
   */
  function InsertDescending<T>(x: T, s: seq<T>, key: T -> int): (r: seq<T>)
    ensures |r| == |s| + 1
    ensures multiset(r) == multiset(s) + multiset{x}
    ensures forall i | 0 <= i < |r| :: r[i] == x || r[i] in s
  {
    if s == [] then [x]
    else if key(s[0]) <= key(x) then [x] + s
    else
      assert s == [s[0]] + s[1..];
      [s[0]] + InsertDescending(x, s[1..], key)
  }

  /** Inserting into a sorted sequence keeps it sorted. */
  lemma {:induction false} InsertDescendingSorted<T>(x: T, s: seq<T>, key: T -> int)
    requires SortedDescending(s, key)
    ensures SortedDescending(InsertDescending(x, s, key), key)
  {
    if s != [] && key(s[0]) > key(x) {
      var rest := InsertDescending(x, s[1..], key);
      InsertDescendingSorted(x, s[1..], key);
      forall i | 0 <= i < |rest| ensures key(rest[i]) <= key(s[0]) {
        if rest[i] != x {
          var k :| 0 <= k < |s[1..]| && s[1..][k] == rest[i];
          assert s[k + 1] == rest[i];
        }
      }
      SortedCons(s[0], rest, key);
    }
  }

  lemma SortedCons<T>(h: T, t: seq<T>, key: T -> int)
    requires SortedDescending(t, key)
    requires forall i | 0 <= i < |t| :: key(t[i]) <= key(h)
    ensures SortedDescending([h] + t, key)
  {
    assert forall i | 0 <= i < |t| :: ([h] + t)[i + 1] == t[i];
  }

  /** `OrderByDescending(key)`: a permutation of `s` with non-increasing keys. */
  function OrderByDescending<T>(s: seq<T>, key: T -> int): (r: seq<T>)
    ensures |r| == |s|
    ensures SortedDescending(r, key)
    ensures multiset(r) == multiset(s)
  {
    if s == [] then []
    else
      var rest := OrderByDescending(s[1..], key);
      assert s == [s[0]] + s[1..];
      InsertDescendingSorted(s[0], rest, key);
      InsertDescending(s[0], rest, key)
  }

  /** Two sequences with the same multiset have the same members. */
  lemma SameMembers<T>(a: seq<T>, b: seq<T>)
    requires multiset(a) == multiset(b)
    ensures forall x | x in a :: x in b
    ensures forall x | x in b :: x in a
  {
    forall x | x in a ensures x in b {
      assert x in multiset(a);
    }
    forall x | x in b ensures x in a {
      assert x in multiset(b);
    }
  }

  /** A page `Take(Skip(s, start), size)` of a sorted sequence is sorted and drawn from `s`. */
  /** A page of a sorted permutation of `s`: rows of `s`, still in order, and the slice at `start`. */
  lemma PageOfOrdered<T>(s: seq<T>, key: T -> int, start: int, size: int)
    ensures var sorted := OrderByDescending(s, key);
      var r := Take(Skip(sorted, start), size);
      && SortedDescending(r, key)
      && (forall i | 0 <= i < |r| :: r[i] in s)
      && (0 <= start < |sorted| && size >= 0 ==> r == sorted[start..if start + size <= |sorted| then start + size else |sorted|])
      && (start >= |sorted| ==> r == [])
  {
    var sorted := OrderByDescending(s, key);
    PageOfSorted(sorted, key, start, size);
    SameMembers(sorted, s);
  }

  lemma PageOfSorted<T>(s: seq<T>, key: T -> int, start: int, size: int)
    requires SortedDescending(s, key)
    ensures var r := Take(Skip(s, start), size);
      && SortedDescending(r, key)
      && (forall i | 0 <= i < |r| :: r[i] in s)
      && (0 <= start < |s| && size >= 0 ==> r == s[start..if start + size <= |s| then start + size else |s|])
      && (start >= |s| ==> r == [])
  {
    var lo := if start <= 0 then 0 else if start >= |s| then |s| else start;
    var hi := if size <= 0 then lo else if lo + size >= |s| then |s| else lo + size;
    var r := Take(Skip(s, start), size);
    assert Skip(s, start) == s[lo..];
    assert r == s[lo..hi] by {
      if size <= 0 {
      } else if lo + size >= |s| {
      } else {
        assert s[lo..][..size] == s[lo..lo + size];
      }
    }
    forall i, j | 0 <= i < j < |r| ensures key(r[i]) >= key(r[j]) {
      assert r[i] == s[lo + i] && r[j] == s[lo + j];
    }
    forall i | 0 <= i < |r| ensures r[i] in s {
      assert r[i] == s[lo + i];
    }
  }
}
