/** Value types and sequence helpers shared by every part of the sector-rotation engine. */
module Common {

  /** Python's `None` and pandas' `NaN` alike: a value that is not defined. */
  datatype Option<+T> = None | Some(value: T)

  /** The conditions the engine raises instead of returning a value. */
  datatype Error =
    | NoTickers      // download_daily was given no ticker at all
    | NoValidEtfs    // a sector selection that names no known sector ETF
    | TypeError      // Python raising TypeError on an unexpected JSON shape

  datatype Result<+T> = Ok(value: T) | Err(error: Error)

  function Min(a: int, b: int): int { if a <= b then a else b }

  /** Python's `xs[:n]` for a non-negative `n`. */
  function Take<T>(xs: seq<T>, n: nat): (r: seq<T>)
    ensures |r| == Min(n, |xs|)
    ensures r == xs[..|r|]
  {
    if n < |xs| then xs[..n] else xs
  }

  function Sum(xs: seq<real>): real
  {
    if xs == [] then 0.0 else xs[0] + Sum(xs[1..])
  }

  /** numpy's `mean` of a non-empty sequence. */
  function Mean(xs: seq<real>): real
    requires xs != []
  {
    Sum(xs) / (|xs| as real)
  }

  lemma {:induction false} SumBounds(xs: seq<real>, lo: real, hi: real)
    requires forall i :: 0 <= i < |xs| ==> lo <= xs[i] <= hi
    ensures lo * (|xs| as real) <= Sum(xs) <= hi * (|xs| as real)
  {
    if xs != [] {
      SumBounds(xs[1..], lo, hi);
    }
  }

  /** A mean lies between any lower and upper bound of its elements. */
  lemma MeanBounds(xs: seq<real>, lo: real, hi: real)
    requires xs != []
    requires forall i :: 0 <= i < |xs| ==> lo <= xs[i] <= hi
    ensures lo <= Mean(xs) <= hi
  {
    SumBounds(xs, lo, hi);
    var n := |xs| as real;
    assert Mean(xs) * n == Sum(xs);
  }

  /** Python's `sep.join(parts)`. */
  function Join(parts: seq<string>, sep: string): string
  {
    if parts == [] then ""
    else if |parts| == 1 then parts[0]
    else parts[0] + sep + Join(parts[1..], sep)
  }

  lemma JoinCons(parts: seq<string>, sep: string)
    requires |parts| >= 2
    ensures Join(parts, sep) == parts[0] + sep + Join(parts[1..], sep)
  {
  }

  function CountChar(s: string, c: char): nat
  {
    if s == [] then 0 else (if s[0] == c then 1 else 0) + CountChar(s[1..], c)
  }

  lemma {:induction false} CountCharConcat(a: string, b: string, c: char)
    ensures CountChar(a + b, c) == CountChar(a, c) + CountChar(b, c)
  {
    if a != [] {
      assert (a + b)[1..] == a[1..] + b;
      CountCharConcat(a[1..], b, c);
    } else {
      assert a + b == b;
    }
  }

  /**
    Joining newline-free lines with "\n" yields a text with exactly one line per
    part: it holds |parts| - 1 newlines.
  */
  lemma {:induction false} JoinLineCount(parts: seq<string>)
    requires parts != []
    requires forall i :: 0 <= i < |parts| ==> CountChar(parts[i], '\n') == 0
    ensures CountChar(Join(parts, "\n"), '\n') == |parts| - 1
  {
    if |parts| > 1 {
      JoinLineCount(parts[1..]);
      CountCharConcat(parts[0], "\n", '\n');
      CountCharConcat(parts[0] + "\n", Join(parts[1..], "\n"), '\n');
      assert CountChar("\n", '\n') == 1;
    }
  }

  predicate NoDuplicates<T(==)>(xs: seq<T>)
  {
    forall i, j :: 0 <= i < j < |xs| ==> xs[i] != xs[j]
  }

  /** `xs` is `ys` with some elements left out, the rest kept in order. */
  predicate IsSubsequence<T(==)>(xs: seq<T>, ys: seq<T>)
  {
    if xs == [] then true
    else if ys == [] then false
    else if xs[0] == ys[0] then IsSubsequence(xs[1..], ys[1..])
    else IsSubsequence(xs, ys[1..])
  }

  /** An element found at two positions is counted at least twice. */
  lemma RepeatedElementCount<T>(s: seq<T>, i: nat, j: nat)
    requires i < j < |s| && s[i] == s[j]
    ensures multiset(s)[s[i]] >= 2
  {
    assert s == s[..j] + [s[j]] + s[j + 1..];
    assert s[i] in s[..j];
  }

  /** In a duplicate-free sequence every element is counted at most once. */
  lemma {:induction false} DistinctCountAtMostOne<T>(s: seq<T>, x: T)
    requires NoDuplicates(s)
    ensures multiset(s)[x] <= 1
  {
    if s != [] {
      DistinctCountAtMostOne(s[1..], x);
      assert s == [s[0]] + s[1..];
      if x == s[0] {
        assert x !in s[1..];
      }
    }
  }

  /** A permutation of a duplicate-free sequence is duplicate-free. */
  lemma PermutationKeepsDistinct<T>(s: seq<T>, t: seq<T>)
    requires NoDuplicates(s) && multiset(t) == multiset(s)
    ensures NoDuplicates(t)
  {
    forall i, j | 0 <= i < j < |t|
      ensures t[i] != t[j]
    {
      if t[i] == t[j] {
        RepeatedElementCount(t, i, j);
        DistinctCountAtMostOne(s, t[i]);
      }
    }
  }
  /** A text joined from pieces none of which, separator included, holds `c` does not hold `c`. */
  lemma {:induction false} JoinAvoids(parts: seq<string>, sep: string, c: char)
    requires c !in sep
    requires forall i :: 0 <= i < |parts| ==> c !in parts[i]
    ensures c !in Join(parts, sep)
  {
    if |parts| > 1 {
      JoinAvoids(parts[1..], sep, c);
    }
  }

  /** A character that does not occur is counted zero times. */
  lemma {:induction false} CountAbsentChar(s: string, c: char)
    requires c !in s
    ensures CountChar(s, c) == 0
  {
    if s != [] {
      assert s[1..] <= s || forall k :: 0 <= k < |s[1..]| ==> s[1..][k] == s[k + 1];
      CountAbsentChar(s[1..], c);
    }
  }

  /** Appending one element to both sides keeps a subsequence a subsequence. */
  lemma {:induction false} SubsequenceSnoc<T>(xs: seq<T>, ys: seq<T>, y: T)
    requires IsSubsequence(xs, ys)
    ensures IsSubsequence(xs + [y], ys + [y])
    ensures IsSubsequence(xs, ys + [y])
    decreases |ys|
  {
    if xs == [] {
      assert xs + [y] == [y];
      SubsequenceOfAny([y], ys + [y]);
    } else {
      assert ys != [];
      assert (ys + [y])[1..] == ys[1..] + [y];
      if xs[0] == ys[0] {
        assert (xs + [y])[1..] == xs[1..] + [y];
        SubsequenceSnoc(xs[1..], ys[1..], y);
      } else {
        SubsequenceSnoc(xs, ys[1..], y);
      }
    }
  }

  /** A one-element sequence is a subsequence of any sequence holding its element at the end. */
  lemma {:induction false} SubsequenceOfAny<T>(xs: seq<T>, ys: seq<T>)
    requires |xs| == 1 && ys != [] && ys[|ys| - 1] == xs[0]
    ensures IsSubsequence(xs, ys)
    decreases |ys|
  {
    if xs[0] != ys[0] {
      SubsequenceOfAny(xs, ys[1..]);
    } else {
      assert xs[1..] == [];
    }
  }
}
