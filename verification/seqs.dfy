/** Generic sequence helpers shared by every table computation: optional
    values, filtering, summation, distinctness and a stable descending sort. */
module Seqs {

  datatype Option<+T> = None | Some(value: T)

  datatype Result<+R, +E> = Success(value: R) | Failure(error: E)

  /** Keeps the elements satisfying `p`, in their original order (a boolean
      row mask). */
  function Filter<T(==,!new)>(xs: seq<T>, p: T -> bool): (r: seq<T>)
    ensures |r| <= |xs|
    ensures forall i :: 0 <= i < |r| ==> p(r[i])
    ensures forall x :: x in r <==> x in xs && p(x)
  {
    if |xs| == 0 then []
    else if p(xs[0]) then [xs[0]] + Filter(xs[1..], p)
    else Filter(xs[1..], p)
  }

  /** Filtering distributes over concatenation: the kept rows stay in order. */
  lemma {:induction false} FilterConcat<T(!new)>(a: seq<T>, b: seq<T>, p: T -> bool)
    ensures Filter(a + b, p) == Filter(a, p) + Filter(b, p)
  {
    if |a| == 0 {
      assert a + b == b;
    } else {
      assert (a + b)[1..] == a[1..] + b;
      FilterConcat(a[1..], b, p);
    }
  }

  /** A rejected element can be removed before filtering. */
  lemma FilterDropRejected<T(!new)>(a: seq<T>, x: T, b: seq<T>, p: T -> bool)
    requires !p(x)
    ensures Filter(a + [x] + b, p) == Filter(a + b, p)
  {
    assert Filter([x], p) == [];
    FilterConcat(a + [x], b, p);
    FilterConcat(a, [x], p);
    FilterConcat(a, b, p);
  }

  /** A filter keeps everything when every element passes. */
  lemma {:induction false} FilterAll<T(!new)>(xs: seq<T>, p: T -> bool)
    requires forall i :: 0 <= i < |xs| ==> p(xs[i])
    ensures Filter(xs, p) == xs
  {
    if |xs| > 0 {
      FilterAll(xs[1..], p);
    }
  }

  /** Applies `f` to every element (a row-wise column transform). */
  function MapSeq<T, U>(xs: seq<T>, f: T -> U): (r: seq<U>)
    ensures |r| == |xs|
    ensures forall i :: 0 <= i < |xs| ==> r[i] == f(xs[i])
  {
    if |xs| == 0 then [] else [f(xs[0])] + MapSeq(xs[1..], f)
  }

  lemma {:induction false} MapConcat<T, U>(a: seq<T>, b: seq<T>, f: T -> U)
    ensures MapSeq(a + b, f) == MapSeq(a, f) + MapSeq(b, f)
  {
    if |a| > 0 {
      assert (a + b)[1..] == a[1..] + b;
      MapConcat(a[1..], b, f);
    }
  }

  /** Sum of `f` over the elements (a column sum). */
  function Sum<T>(xs: seq<T>, f: T -> int): int
  {
    if |xs| == 0 then 0 else f(xs[0]) + Sum(xs[1..], f)
  }

  lemma {:induction false} SumConcat<T>(a: seq<T>, b: seq<T>, f: T -> int)
    ensures Sum(a + b, f) == Sum(a, f) + Sum(b, f)
  {
    if |a| == 0 {
      assert a + b == b;
    } else {
      assert (a + b)[1..] == a[1..] + b;
      SumConcat(a[1..], b, f);
    }
  }

  /** Taking element `i` out of `b` takes its value out of the sum. */
  lemma SumRemove<T>(b: seq<T>, i: int, f: T -> int)
    requires 0 <= i < |b|
    ensures Sum(b, f) == f(b[i]) + Sum(b[..i] + b[i + 1..], f)
  {
    var pre, post := b[..i], b[i + 1..];
    assert b == pre + ([b[i]] + post);
    SumConcat(pre, [b[i]] + post, f);
    assert ([b[i]] + post)[1..] == post;
    assert Sum([b[i]] + post, f) == f(b[i]) + Sum(post, f);
    SumConcat(pre, post, f);
  }


  /** Taking element `i` out of `b` takes one copy of it out of the multiset. */
  lemma MultisetRemove<T>(b: seq<T>, i: int)
    requires 0 <= i < |b|
    ensures multiset(b[..i] + b[i + 1..]) == multiset(b) - multiset{b[i]}
  {
    assert b == b[..i] + [b[i]] + b[i + 1..];
    assert multiset(b) == multiset(b[..i]) + multiset{b[i]} + multiset(b[i + 1..]);
  }

  /** A column sum depends only on the multiset of rows, not on their order. */
  lemma {:induction false} SumPermutation<T>(a: seq<T>, b: seq<T>, f: T -> int)
    requires multiset(a) == multiset(b)
    ensures Sum(a, f) == Sum(b, f)
  {
    if |a| > 0 {
      var x := a[0];
      assert x in multiset(b);
      var i :| 0 <= i < |b| && b[i] == x;
      var b' := b[..i] + b[i + 1..];
      assert a == [x] + a[1..];
      assert multiset(a[1..]) == multiset(a) - multiset{x};
      MultisetRemove(b, i);
      SumPermutation(a[1..], b', f);
      SumRemove(b, i, f);
    } else {
      assert |b| == |multiset(b)| == 0;
    }
  }

  lemma {:induction false} SumNonNegative<T>(xs: seq<T>, f: T -> int)
    requires forall i :: 0 <= i < |xs| ==> f(xs[i]) >= 0
    ensures Sum(xs, f) >= 0
  {
    if |xs| > 0 {
      SumNonNegative(xs[1..], f);
    }
  }

  /** Dropping rows with non-negative values never increases a column sum. */
  lemma {:induction false} FilterSumLe<T(!new)>(xs: seq<T>, p: T -> bool, f: T -> int)
    requires forall i :: 0 <= i < |xs| ==> f(xs[i]) >= 0
    ensures Sum(Filter(xs, p), f) <= Sum(xs, f)
  {
    if |xs| > 0 {
      FilterSumLe(xs[1..], p, f);
    }
  }

  predicate NoDups<T(==)>(xs: seq<T>)
  {
    forall i, j :: 0 <= i < j < |xs| ==> xs[i] != xs[j]
  }

  /** The distinct elements of `xs` in order of first appearance. */
  function Distinct<T(==,!new)>(xs: seq<T>): (r: seq<T>)
    ensures NoDups(r)
    ensures forall x :: x in r <==> x in xs
    ensures |r| <= |xs|
  {
    if |xs| == 0 then []
    else
      var d := Distinct(xs[..|xs| - 1]);
      assert xs == xs[..|xs| - 1] + [xs[|xs| - 1]];
      if xs[|xs| - 1] in d then d else d + [xs[|xs| - 1]]
  }

  /** Adjacent elements are ordered by `geq`: a non-increasing sequence. */
  predicate SortedBy<T>(xs: seq<T>, geq: (T, T) -> bool)
  {
    forall i :: 0 < i < |xs| ==> geq(xs[i - 1], xs[i])
  }

  /** Inserts `x` before the first element it is not below. */
  function Insert<T(!new)>(x: T, xs: seq<T>, geq: (T, T) -> bool): (r: seq<T>)
    requires forall a, b :: geq(a, b) || geq(b, a)
    requires SortedBy(xs, geq)
    ensures SortedBy(r, geq)
    ensures multiset(r) == multiset(xs) + multiset{x}
    ensures |r| == |xs| + 1
    ensures |r| > 0 && (r[0] == x || (|xs| > 0 && r[0] == xs[0]))
  {
    if |xs| == 0 || geq(x, xs[0]) then [x] + xs
    else
      var rest := Insert(x, xs[1..], geq);
      assert xs == [xs[0]] + xs[1..];
      [xs[0]] + rest
  }

  /** Sorts into non-increasing `geq` order; equal elements keep their input
      order. */
  function SortDesc<T(!new)>(xs: seq<T>, geq: (T, T) -> bool): (r: seq<T>)
    requires forall a, b :: geq(a, b) || geq(b, a)
    ensures SortedBy(r, geq)
    ensures multiset(r) == multiset(xs)
    ensures |r| == |xs|
  {
    if |xs| == 0 then []
    else
      assert xs == [xs[0]] + xs[1..];
      Insert(xs[0], SortDesc(xs[1..], geq), geq)
  }

  /** With a transitive order, adjacent order gives order between any two
      positions. */
  lemma {:induction false} SortedPairwise<T>(xs: seq<T>, geq: (T, T) -> bool, i: int, j: int)
    requires forall a, b, c :: geq(a, b) && geq(b, c) ==> geq(a, c)
    requires forall a :: geq(a, a)
    requires SortedBy(xs, geq)
    requires 0 <= i <= j < |xs|
    ensures geq(xs[i], xs[j])
    decreases j - i
  {
    if i < j {
      SortedPairwise(xs, geq, i + 1, j);
      assert geq(xs[i], xs[i + 1]);
    }
  }

  /** A sorted sequence is ordered between any two positions. */
  lemma SortedAll<T>(xs: seq<T>, geq: (T, T) -> bool)
    requires forall a, b, c :: geq(a, b) && geq(b, c) ==> geq(a, c)
    requires forall a :: geq(a, a)
    requires SortedBy(xs, geq)
    ensures forall i, j :: 0 <= i <= j < |xs| ==> geq(xs[i], xs[j])
  {
    forall i, j | 0 <= i <= j < |xs| ensures geq(xs[i], xs[j]) {
      SortedPairwise(xs, geq, i, j);
    }
  }

  /** An element occurs at most once in a duplicate-free sequence. */
  lemma {:induction false} NoDupsCount<T>(xs: seq<T>, x: T)
    requires NoDups(xs)
    ensures multiset(xs)[x] <= 1
  {
    if |xs| > 0 {
      assert xs == [xs[0]] + xs[1..];
      assert NoDups(xs[1..]) by {
        forall i, j | 0 <= i < j < |xs[1..]| ensures xs[1..][i] != xs[1..][j] {
          assert xs[1..][i] == xs[i + 1] && xs[1..][j] == xs[j + 1];
        }
      }
      NoDupsCount(xs[1..], x);
      if x == xs[0] {
        assert x !in xs[1..];
      }
    }
  }

  /** An element found at two positions occurs at least twice. */
  lemma DupCount<T>(xs: seq<T>, i: int, j: int)
    requires 0 <= i < j < |xs| && xs[i] == xs[j]
    ensures multiset(xs)[xs[i]] >= 2
  {
    assert xs == xs[..j] + [xs[j]] + xs[j + 1..];
    assert xs[..j][i] == xs[i];
  }

  /** A permutation of a duplicate-free sequence is duplicate-free. */
  lemma NoDupsPermutation<T>(a: seq<T>, b: seq<T>)
    requires NoDups(a) && multiset(a) == multiset(b)
    ensures NoDups(b)
  {
    forall i, j | 0 <= i < j < |b| ensures b[i] != b[j] {
      if b[i] == b[j] {
        DupCount(b, i, j);
        NoDupsCount(a, b[i]);
        assert false;
      }
    }
  }

  /** A permutation has the same projected values. */
  lemma MapMembersPermutation<T, U>(a: seq<T>, b: seq<T>, f: T -> U)
    requires multiset(a) == multiset(b)
    ensures forall y :: y in MapSeq(b, f) <==> y in MapSeq(a, f)
  {
    var ma, mb := MapSeq(a, f), MapSeq(b, f);
    forall y ensures y in mb <==> y in ma {
      if y in mb {
        var i :| 0 <= i < |b| && mb[i] == y;
        assert b[i] in multiset(a);
        var j :| 0 <= j < |a| && a[j] == b[i];
        assert ma[j] == y;
      }
      if y in ma {
        var j :| 0 <= j < |a| && ma[j] == y;
        assert a[j] in multiset(b);
        var i :| 0 <= i < |b| && b[i] == a[j];
        assert mb[i] == y;
      }
    }
  }

  /** A permutation of a sequence with distinct projected values also has
      distinct projected values. */
  lemma MapNoDupsPermutation<T, U>(a: seq<T>, b: seq<T>, f: T -> U)
    requires multiset(a) == multiset(b)
    requires NoDups(MapSeq(a, f))
    ensures NoDups(MapSeq(b, f))
  {
    var ma, mb := MapSeq(a, f), MapSeq(b, f);
    assert NoDups(a) by {
      forall i, j | 0 <= i < j < |a| ensures a[i] != a[j] {
        assert ma[i] != ma[j];
      }
    }
    NoDupsPermutation(a, b);
    forall i, j | 0 <= i < j < |b| ensures mb[i] != mb[j] {
      assert b[i] in multiset(a) && b[j] in multiset(a);
      var p :| 0 <= p < |a| && a[p] == b[i];
      var q :| 0 <= q < |a| && a[q] == b[j];
      assert p != q;
      if p < q {
        assert ma[p] != ma[q];
      } else {
        assert ma[q] != ma[p];
      }
    }
  }

  /** A property of every value of a mapped column holds for `f` of every
      element. */
  lemma MapSeqAll<T, U>(xs: seq<T>, f: T -> U, p: U -> bool)
    requires forall y :: y in MapSeq(xs, f) ==> p(y)
    ensures forall i :: 0 <= i < |xs| ==> p(f(xs[i]))
  {
    forall i | 0 <= i < |xs| ensures p(f(xs[i])) {
      assert MapSeq(xs, f)[i] == f(xs[i]);
    }
  }
}
