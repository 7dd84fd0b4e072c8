/**
  Descending sorts by a tuple-shaped key, as `list.sort(key=..., reverse=True)`
  and `DataFrame.sort_values(..., ascending=False)` order the engine's rows.
  An undefined key component (NaN) ranks below every number, so that
  undefined scores come last.
*/
module Sorting {
  import opened Common

  /** A sort key: a tuple of possibly undefined numbers. */
  type Key = seq<Option<real>>

  predicate OptLess(a: Option<real>, b: Option<real>)
  {
    match a
    case None => b.Some?
    case Some(x) => b.Some? && x < b.value
  }

  /** Python's lexicographic `<` on tuples. */
  predicate KeyLess(a: Key, b: Key)
  {
    if a == [] then b != []
    else if b == [] then false
    else OptLess(a[0], b[0]) || (a[0] == b[0] && KeyLess(a[1..], b[1..]))
  }

  lemma {:induction false} KeyLessIrreflexive(a: Key)
    ensures !KeyLess(a, a)
  {
    if a != [] {
      KeyLessIrreflexive(a[1..]);
    }
  }

  lemma {:induction false} KeyLessTransitive(a: Key, b: Key, c: Key)
    requires KeyLess(a, b) && KeyLess(b, c)
    ensures KeyLess(a, c)
  {
    if a != [] && b != [] && c != [] && a[0] == b[0] == c[0] {
      KeyLessTransitive(a[1..], b[1..], c[1..]);
    }
  }

  lemma {:induction false} KeyLessTotal(a: Key, b: Key)
    ensures a == b || KeyLess(a, b) || KeyLess(b, a)
  {
    if a != [] && b != [] && a[0] == b[0] {
      KeyLessTotal(a[1..], b[1..]);
      if a[1..] == b[1..] {
        assert a == [a[0]] + a[1..] && b == [b[0]] + b[1..];
      }
    }
  }

  /** "At least as large" is transitive. */
  lemma KeyGeqTransitive(a: Key, b: Key, c: Key)
    requires !KeyLess(a, b) && !KeyLess(b, c)
    ensures !KeyLess(a, c)
  {
    if KeyLess(a, c) {
      KeyLessTotal(b, c);
      if KeyLess(c, b) {
        KeyLessTransitive(a, c, b);
      }
    }
  }

  /** No element ranks above a later one. */
  predicate SortedDesc<T>(xs: seq<T>, key: T -> Key)
  {
    forall i, j :: 0 <= i < j < |xs| ==> !KeyLess(key(xs[i]), key(xs[j]))
  }

  /** Inserts `x` after every element whose key is at least its own, which keeps the sort stable. */
  method InsertDesc<T>(ys: seq<T>, x: T, key: T -> Key) returns (zs: seq<T>)
    requires SortedDesc(ys, key)
    ensures SortedDesc(zs, key)
    ensures multiset(zs) == multiset(ys) + multiset{x}
  {
    var j := 0;
    while j < |ys| && !KeyLess(key(ys[j]), key(x))
      invariant 0 <= j <= |ys|
      invariant forall k :: 0 <= k < j ==> !KeyLess(key(ys[k]), key(x))
    {
      j := j + 1;
    }
    zs := ys[..j] + [x] + ys[j..];
    forall a, b | 0 <= a < b < |zs|
      ensures !KeyLess(key(zs[a]), key(zs[b]))
    {
      if a == j {
        // x went in front of ys[j], which ranks strictly below it
        if KeyLess(key(x), key(ys[b - 1])) {
          KeyLessTransitive(key(ys[j]), key(x), key(ys[b - 1]));
          if b - 1 == j {
            KeyLessIrreflexive(key(ys[j]));
          }
        }
      } else if a < j && b == j {
        assert zs[a] == ys[a] && zs[b] == x;
      } else {
        var a' := if a < j then a else a - 1;
        var b' := if b < j then b else b - 1;
        assert zs[a] == ys[a'] && zs[b] == ys[b'] && a' < b';
      }
    }
    assert ys == ys[..j] + ys[j..];
  }

  /** `xs.sort(key=key, reverse=True)`: a descending permutation of the input. */
  method SortDescending<T>(xs: seq<T>, key: T -> Key) returns (ys: seq<T>)
    ensures SortedDesc(ys, key)
    ensures multiset(ys) == multiset(xs)
  {
    ys := [];
    for i := 0 to |xs|
      invariant SortedDesc(ys, key)
      invariant multiset(ys) == multiset(xs[..i])
    {
      ys := InsertDesc(ys, xs[i], key);
      assert xs[..i + 1] == xs[..i] + [xs[i]];
    }
    assert xs[..|xs|] == xs;
  }

  /** A prefix of a descending list is descending. */
  lemma TakeSorted<T>(xs: seq<T>, n: nat, key: T -> Key)
    requires SortedDesc(xs, key)
    ensures SortedDesc(Take(xs, n), key)
  {
  }

  /** A list is descending when its head ranks no lower than every later element and the rest is descending. */
  lemma ConsSortedDesc<T>(x: T, rest: seq<T>, key: T -> Key)
    requires SortedDesc(rest, key)
    requires forall y :: y in rest ==> !KeyLess(key(x), key(y))
    ensures SortedDesc([x] + rest, key)
  {
    var xs := [x] + rest;
    forall i, j | 0 <= i < j < |xs|
      ensures !KeyLess(key(xs[i]), key(xs[j]))
    {
      assert xs[j] == rest[j - 1];
      if i > 0 {
        assert xs[i] == rest[i - 1];
      }
    }
  }

  /** The tail of a descending list is descending, and its head ranks no lower than any of the tail. */
  lemma TailSortedDesc<T>(xs: seq<T>, key: T -> Key)
    requires SortedDesc(xs, key) && xs != []
    ensures SortedDesc(xs[1..], key)
    ensures forall y :: y in xs[1..] ==> !KeyLess(key(xs[0]), key(y))
  {
    forall y | y in xs[1..]
      ensures !KeyLess(key(xs[0]), key(y))
    {
      var k :| 0 <= k < |xs[1..]| && xs[1..][k] == y;
      assert xs[k + 1] == y;
    }
  }
}
