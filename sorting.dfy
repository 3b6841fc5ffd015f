/**
 * The list operations the song list and the score tables are built from:
 * `Array.prototype.filter`, a comparison sort (`Array.prototype.sort` with a
 * comparator, which ECMAScript requires to be stable) and `slice(0, n)`.
 *
 * A comparator `cmp` is represented by the relation `le(a, b)` meaning
 * `cmp(a, b) <= 0`, i.e. `a` may stay before `b`.
 */
module Sorting {

  /** `s.filter(p)`. */
  function Filter<T>(s: seq<T>, p: T -> bool): (r: seq<T>)
    ensures |r| <= |s|
  {
    if s == [] then [] else (if p(s[0]) then [s[0]] else []) + Filter(s[1..], p)
  }

  /**
   * The filtered list holds exactly the elements that pass, as many times as
   * they occur, and nothing else.
   */
  lemma {:induction false} FilterSpec<T>(s: seq<T>, p: T -> bool)
    ensures forall x | x in Filter(s, p) :: p(x) && x in s
    ensures forall x | x in s && p(x) :: x in Filter(s, p)
    ensures multiset(Filter(s, p)) <= multiset(s)
    ensures forall x | p(x) :: multiset(Filter(s, p))[x] == multiset(s)[x]
  {
    if s != [] {
      FilterSpec(s[1..], p);
      assert s == [s[0]] + s[1..];
    }
  }

  /** Filtering works piece by piece: the passing elements keep their relative order. */
  lemma {:induction false} FilterConcat<T>(a: seq<T>, b: seq<T>, p: T -> bool)
    ensures Filter(a + b, p) == Filter(a, p) + Filter(b, p)
  {
    if a == [] {
      assert a + b == b;
    } else {
      FilterConcat(a[1..], b, p);
      var head: seq<T> := if p(a[0]) then [a[0]] else [];
      assert (a + b)[0] == a[0] && (a + b)[1..] == a[1..] + b;
      assert Filter(a + b, p) == head + Filter(a[1..] + b, p);
      assert Filter(a, p) == head + Filter(a[1..], p);
      ConcatAssoc(head, Filter(a[1..], p), Filter(b, p));
    }
  }

  lemma ConcatAssoc<T>(x: seq<T>, y: seq<T>, z: seq<T>)
    ensures x + (y + z) == (x + y) + z
  {
  }

  /** A filter every element passes keeps the whole list. */
  lemma {:induction false} FilterAll<T>(s: seq<T>, p: T -> bool)
    requires forall x | x in s :: p(x)
    ensures Filter(s, p) == s
  {
    if s != [] {
      assert s[1..] == s[1..];
      assert forall x | x in s[1..] :: x in s;
      FilterAll(s[1..], p);
    }
  }

  /** `le` is total and transitive: a consistent comparator. */
  ghost predicate TotalPreorder<T(!new)>(le: (T, T) -> bool) {
    && (forall a, b :: le(a, b) || le(b, a))
    && (forall a, b, c :: le(a, b) && le(b, c) ==> le(a, c))
  }

  predicate SortedBy<T>(s: seq<T>, le: (T, T) -> bool) {
    forall i, j | 0 <= i < j < |s| :: le(s[i], s[j])
  }

  /** `x` placed before the first element it may precede. */
  function Insert<T>(x: T, s: seq<T>, le: (T, T) -> bool): (r: seq<T>)
    ensures |r| == |s| + 1
  {
    if s == [] then [x]
    else if le(x, s[0]) then [x] + s
    else [s[0]] + Insert(x, s[1..], le)
  }

  lemma {:induction false} InsertPermutes<T>(x: T, s: seq<T>, le: (T, T) -> bool)
    ensures multiset(Insert(x, s, le)) == multiset(s) + multiset{x}
  {
    if s != [] && !le(x, s[0]) {
      InsertPermutes(x, s[1..], le);
      assert s == [s[0]] + s[1..];
    }
  }

  lemma {:induction false} InsertElements<T>(x: T, s: seq<T>, le: (T, T) -> bool)
    ensures forall y | y in Insert(x, s, le) :: y == x || y in s
  {
    if s != [] && !le(x, s[0]) {
      InsertElements(x, s[1..], le);
    }
  }

  lemma {:induction false} InsertSorted<T(!new)>(x: T, s: seq<T>, le: (T, T) -> bool)
    requires TotalPreorder(le) && SortedBy(s, le)
    ensures SortedBy(Insert(x, s, le), le)
  {
    if s != [] {
      if le(x, s[0]) {
        var r := [x] + s;
        forall i, j | 0 <= i < j < |r|
          ensures le(r[i], r[j])
        {
          if i == 0 && j > 1 {
            assert le(s[0], s[j - 1]);
          }
        }
      } else {
        var rest := Insert(x, s[1..], le);
        InsertSorted(x, s[1..], le);
        InsertElements(x, s[1..], le);
        assert le(s[0], x);
        assert forall y | y in s[1..] :: le(s[0], y);
        var r := [s[0]] + rest;
        forall i, j | 0 <= i < j < |r|
          ensures le(r[i], r[j])
        {
          if i == 0 {
            assert r[j] in rest;
          } else {
            assert r[i] == rest[i - 1] && r[j] == rest[j - 1];
          }
        }
      }
    }
  }

  /** `s.sort(cmp)`: insertion of each element, from the last one back, into the sorted rest. */
  function SortBy<T>(s: seq<T>, le: (T, T) -> bool): (r: seq<T>)
    ensures |r| == |s|
  {
    if s == [] then [] else Insert(s[0], SortBy(s[1..], le), le)
  }

  /** The sort returns a permutation of its input, ordered by any consistent comparator. */
  lemma {:induction false} SortBySpec<T(!new)>(s: seq<T>, le: (T, T) -> bool)
    requires TotalPreorder(le)
    ensures multiset(SortBy(s, le)) == multiset(s)
    ensures SortedBy(SortBy(s, le), le)
  {
    if s != [] {
      SortBySpec(s[1..], le);
      InsertPermutes(s[0], SortBy(s[1..], le), le);
      InsertSorted(s[0], SortBy(s[1..], le), le);
      assert s == [s[0]] + s[1..];
    }
  }

  /** `s.slice(0, n)`. */
  function Take<T>(s: seq<T>, n: nat): (r: seq<T>)
    ensures |r| == if n < |s| then n else |s|
  {
    if n < |s| then s[..n] else s
  }

  /**
   * The first `n` elements of the sorted list: at most `n` of the input's
   * elements, in order, and every element left out comes after each one kept.
   */
  lemma TopOfSorted<T(!new)>(s: seq<T>, n: nat, le: (T, T) -> bool)
    requires TotalPreorder(le)
    ensures var r := Take(SortBy(s, le), n);
      && |r| == (if n < |s| then n else |s|)
      && SortedBy(r, le)
      && multiset(r) <= multiset(s)
      && forall x | x in multiset(s) - multiset(r) :: forall i | 0 <= i < |r| :: le(r[i], x)
  {
    var t := SortBy(s, le);
    SortBySpec(s, le);
    var k := if n < |s| then n else |s|;
    var r := Take(t, n);
    assert t == r + t[k..];
    assert multiset(t) == multiset(r) + multiset(t[k..]);
    forall x | x in multiset(s) - multiset(r)
      ensures forall i | 0 <= i < |r| :: le(r[i], x)
    {
      assert x in multiset(t[k..]);
      var j :| 0 <= j < |t[k..]| && t[k..][j] == x;
      assert t[k + j] == x;
      forall i | 0 <= i < |r|
        ensures le(r[i], x)
      {
        assert r[i] == t[i];
      }
    }
  }
}
