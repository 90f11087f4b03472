/** Grouped sums: the `groupby(key).agg(col=(col, "sum"))` pattern used by
    every report table, over rows kept in a sequence. */
module Grouping {
  import opened Seqs

  /** The groups of a groupby: each key occurring in `xs`, once. */
  function KeysOf<T, K(==,!new)>(xs: seq<T>, key: T -> K): (r: seq<K>)
    ensures NoDups(r)
    ensures |r| <= |xs|
    ensures forall i :: 0 <= i < |xs| ==> key(xs[i]) in r
    ensures forall k :: k in r ==> exists i :: 0 <= i < |xs| && key(xs[i]) == k
  {
    var col := MapSeq(xs, key);
    var r := Distinct(col);
    assert forall k :: k in r ==> k in col;
    r
  }

  /** Sum of `f` over the rows whose key is `k`: one group's aggregate. */
  function SumWhere<T, K(==)>(xs: seq<T>, key: T -> K, f: T -> int, k: K): int
  {
    if |xs| == 0 then 0
    else (if key(xs[0]) == k then f(xs[0]) else 0) + SumWhere(xs[1..], key, f, k)
  }

  /** Number of rows whose key is `k` (the divisor of a group mean). */
  function CountWhere<T, K(==)>(xs: seq<T>, key: T -> K, k: K): nat
  {
    if |xs| == 0 then 0
    else (if key(xs[0]) == k then 1 else 0) + CountWhere(xs[1..], key, k)
  }

  /** Sum of `f` over the rows whose key is one of `ks`. */
  function SumWhereIn<T, K(==)>(xs: seq<T>, key: T -> K, f: T -> int, ks: seq<K>): int
  {
    if |xs| == 0 then 0
    else (if key(xs[0]) in ks then f(xs[0]) else 0) + SumWhereIn(xs[1..], key, f, ks)
  }

  /** The column of group sums of a grouped table, added up. */
  function SumOverKeys<T, K(==)>(xs: seq<T>, key: T -> K, f: T -> int, ks: seq<K>): int
  {
    if |ks| == 0 then 0 else SumWhere(xs, key, f, ks[0]) + SumOverKeys(xs, key, f, ks[1..])
  }

  lemma {:induction false} SumWhereInCons<T, K>(xs: seq<T>, key: T -> K, f: T -> int, k: K, ks: seq<K>)
    requires k !in ks
    ensures SumWhereIn(xs, key, f, [k] + ks) == SumWhere(xs, key, f, k) + SumWhereIn(xs, key, f, ks)
  {
    if |xs| > 0 {
      SumWhereInCons(xs[1..], key, f, k, ks);
    }
  }

  /** Adding up the sums of distinct groups counts every selected row once. */
  lemma {:induction false} SumOverKeysIsSumWhereIn<T, K>(xs: seq<T>, key: T -> K, f: T -> int, ks: seq<K>)
    requires NoDups(ks)
    ensures SumOverKeys(xs, key, f, ks) == SumWhereIn(xs, key, f, ks)
  {
    if |ks| == 0 {
      SumWhereInNone(xs, key, f, ks);
    } else {
      assert ks == [ks[0]] + ks[1..];
      assert ks[0] !in ks[1..] by {
        forall j | 0 <= j < |ks[1..]| ensures ks[1..][j] != ks[0] {
          assert ks[1..][j] == ks[j + 1];
        }
      }
      SumOverKeysIsSumWhereIn(xs, key, f, ks[1..]);
      SumWhereInCons(xs, key, f, ks[0], ks[1..]);
    }
  }

  lemma {:induction false} SumWhereInNone<T, K>(xs: seq<T>, key: T -> K, f: T -> int, ks: seq<K>)
    requires |ks| == 0
    ensures SumWhereIn(xs, key, f, ks) == 0
  {
    if |xs| > 0 {
      SumWhereInNone(xs[1..], key, f, ks);
    }
  }

  lemma {:induction false} SumWhereInAll<T, K>(xs: seq<T>, key: T -> K, f: T -> int, ks: seq<K>)
    requires forall i :: 0 <= i < |xs| ==> key(xs[i]) in ks
    ensures SumWhereIn(xs, key, f, ks) == Sum(xs, f)
  {
    if |xs| > 0 {
      SumWhereInAll(xs[1..], key, f, ks);
    }
  }

  /** Conservation: the group sums of a groupby add up to the column total. */
  lemma GroupSumsConserve<T, K(!new)>(xs: seq<T>, key: T -> K, f: T -> int)
    ensures SumOverKeys(xs, key, f, KeysOf(xs, key)) == Sum(xs, f)
  {
    var ks := KeysOf(xs, key);
    SumOverKeysIsSumWhereIn(xs, key, f, ks);
    SumWhereInAll(xs, key, f, ks);
  }

  /** A key no row carries has an empty group: its sum is zero. */
  lemma {:induction false} SumWhereAbsent<T, K>(xs: seq<T>, key: T -> K, f: T -> int, k: K)
    requires forall i :: 0 <= i < |xs| ==> key(xs[i]) != k
    ensures SumWhere(xs, key, f, k) == 0
  {
    if |xs| > 0 {
      SumWhereAbsent(xs[1..], key, f, k);
    }
  }

  /** Every group of a groupby has at least one row, so its mean is defined. */
  lemma {:induction false} CountWherePositive<T, K>(xs: seq<T>, key: T -> K, k: K, i: int)
    requires 0 <= i < |xs| && key(xs[i]) == k
    ensures CountWhere(xs, key, k) > 0
  {
    if i > 0 {
      CountWherePositive(xs[1..], key, k, i - 1);
    }
  }

  /** With non-negative values, one group's sum is within the column total. */
  lemma {:induction false} SumWhereBounds<T, K>(xs: seq<T>, key: T -> K, f: T -> int, k: K)
    requires forall i :: 0 <= i < |xs| ==> f(xs[i]) >= 0
    ensures 0 <= SumWhere(xs, key, f, k) <= Sum(xs, f)
  {
    if |xs| > 0 {
      SumWhereBounds(xs[1..], key, f, k);
    }
  }

  /** A group whose rows all have positive values has a positive sum. */
  lemma {:induction false} SumWherePositive<T, K>(xs: seq<T>, key: T -> K, f: T -> int, k: K, i: int)
    requires forall j :: 0 <= j < |xs| ==> f(xs[j]) > 0
    requires 0 <= i < |xs| && key(xs[i]) == k
    ensures SumWhere(xs, key, f, k) > 0
  {
    if |xs| > 0 {
      if i == 0 {
        SumWhereBounds(xs[1..], key, f, k);
      } else {
        SumWherePositive(xs[1..], key, f, k, i - 1);
      }
    }
  }

  /** Sum of a real-valued column over the rows whose key is `k`. */
  function SumWhereReal<T, K(==)>(xs: seq<T>, key: T -> K, f: T -> real, k: K): real
  {
    if |xs| == 0 then 0.0
    else (if key(xs[0]) == k then f(xs[0]) else 0.0) + SumWhereReal(xs[1..], key, f, k)
  }

  /** A group whose every row has value zero sums to zero. */
  lemma {:induction false} SumWhereZero<T, K>(xs: seq<T>, key: T -> K, f: T -> int, k: K)
    requires forall i :: 0 <= i < |xs| && key(xs[i]) == k ==> f(xs[i]) == 0
    ensures SumWhere(xs, key, f, k) == 0
  {
    if |xs| > 0 {
      SumWhereZero(xs[1..], key, f, k);
    }
  }

  /** With non-negative values, the rows selected through one key (`key` in
      `ks`) all lying in group `k` of another key sum to at most that group. */
  lemma {:induction false} SumWhereInLe<T, K, K2>(xs: seq<T>, key: T -> K, f: T -> int, ks: seq<K>, key2: T -> K2, k: K2)
    requires forall i :: 0 <= i < |xs| ==> f(xs[i]) >= 0
    requires forall i :: 0 <= i < |xs| && key(xs[i]) in ks ==> key2(xs[i]) == k
    ensures SumWhereIn(xs, key, f, ks) <= SumWhere(xs, key2, f, k)
  {
    if |xs| > 0 {
      SumWhereInLe(xs[1..], key, f, ks, key2, k);
    }
  }

  /** With non-negative values, filtering rows never increases a group sum. */
  lemma {:induction false} SumWhereFilterLe<T(!new), K>(xs: seq<T>, p: T -> bool, key: T -> K, f: T -> int, k: K)
    requires forall i :: 0 <= i < |xs| ==> f(xs[i]) >= 0
    ensures SumWhere(Filter(xs, p), key, f, k) <= SumWhere(xs, key, f, k)
  {
    if |xs| > 0 {
      SumWhereFilterLe(xs[1..], p, key, f, k);
      if p(xs[0]) {
        var r := [xs[0]] + Filter(xs[1..], p);
        assert r[1..] == Filter(xs[1..], p);
      }
    }
  }

  /** Every group a groupby emits has at least one row. */
  lemma KeysOfCountPositive<T, K(!new)>(xs: seq<T>, key: T -> K)
    ensures forall k :: k in KeysOf(xs, key) ==> CountWhere(xs, key, k) > 0
  {
    forall k | k in KeysOf(xs, key) ensures CountWhere(xs, key, k) > 0 {
      var i :| 0 <= i < |xs| && key(xs[i]) == k;
      CountWherePositive(xs, key, k, i);
    }
  }

  /** A key no row carries has no rows. */
  lemma {:induction false} CountWhereAbsent<T, K>(xs: seq<T>, key: T -> K, k: K)
    requires forall i :: 0 <= i < |xs| ==> key(xs[i]) != k
    ensures CountWhere(xs, key, k) == 0
  {
    if |xs| > 0 {
      CountWhereAbsent(xs[1..], key, k);
    }
  }

  /** The mean of a real-valued column over a non-empty group. */
  function MeanWhere<T, K(==)>(xs: seq<T>, key: T -> K, f: T -> real, k: K): real
    requires CountWhere(xs, key, k) > 0
  {
    SumWhereReal(xs, key, f, k) / CountWhere(xs, key, k) as real
  }

  /** A group without rows: no row carries its key. */
  lemma {:induction false} CountWhereZeroAbsent<T, K>(xs: seq<T>, key: T -> K, k: K)
    requires CountWhere(xs, key, k) > 0
    ensures exists i :: 0 <= i < |xs| && key(xs[i]) == k
  {
    if forall i :: 0 <= i < |xs| ==> key(xs[i]) != k {
      CountWhereAbsent(xs, key, k);
      assert false;
    }
  }

  /** The groups of a filtered table are the keys of the rows that pass. */
  lemma {:induction false} KeysOfFilter<T(!new), K(!new)>(xs: seq<T>, p: T -> bool, key: T -> K)
    ensures forall k :: k in KeysOf(Filter(xs, p), key) <==> exists j :: 0 <= j < |xs| && p(xs[j]) && key(xs[j]) == k
  {
    var b := Filter(xs, p);
    forall k ensures k in KeysOf(b, key) <==> exists j :: 0 <= j < |xs| && p(xs[j]) && key(xs[j]) == k {
      if k in KeysOf(b, key) {
        var i :| 0 <= i < |b| && key(b[i]) == k;
        assert b[i] in xs;
      }
      if j :| 0 <= j < |xs| && p(xs[j]) && key(xs[j]) == k {
        assert xs[j] in b;
      }
    }
  }

  /** A property of every row's key holds for every group key. */
  lemma KeysOfAll<T, K(!new)>(xs: seq<T>, key: T -> K, p: K -> bool)
    requires forall i :: 0 <= i < |xs| ==> p(key(xs[i]))
    ensures forall k :: k in KeysOf(xs, key) ==> p(k)
  {
  }
}
