/** Fragmentation: a product code spread so thin within its merch group
    that at most a handful of pieces remain (backroom and floor together).
    Such (group, code) pairs are fragmented, and their pieces are summed per
    group. */
module Fragmentation {
  import opened Seqs
  import opened Grouping
  import opened Records

  /** Largest total at which a (group, code) pair counts as fragmented. */
  const FragmentThreshold: int := 4

  /** The (Merch Group, Specialcode1) grouping key. */
  datatype PairKey = PairKey(group: string, code: string)

  function PairOf(r: StockRow): PairKey { PairKey(r.group, r.code) }

  /** The pieces of one (group, code) pair, backroom and floor together. */
  function PairTotal(stock: seq<StockRow>, p: PairKey): int
  {
    SumWhere(stock, PairOf, Pcs, p)
  }

  /** A row of the per-pair table. */
  datatype PairRow = PairRow(pair: PairKey, totalPcs: int)

  function RowGroup(t: PairRow): string { t.pair.group }
  function RowTotal(t: PairRow): int { t.totalPcs }

  predicate IsSmall(t: PairRow) { t.totalPcs <= FragmentThreshold }

  /** The pieces of each (group, code) pair, in pair order.
      Written as its own recursion rather than as a `MapSeq`, so that its
      ensures can say what each row holds. */
  function PairRows(stock: seq<StockRow>, pairs: seq<PairKey>): (r: seq<PairRow>)
    ensures |r| == |pairs|
    ensures forall i :: 0 <= i < |pairs| ==> r[i] == PairRow(pairs[i], PairTotal(stock, pairs[i]))
  {
    if |pairs| == 0 then [] else [PairRow(pairs[0], PairTotal(stock, pairs[0]))] + PairRows(stock, pairs[1..])
  }

  /** The per-pair table: one row per (group, code) pair of the report. */
  function PairTable(stock: seq<StockRow>): seq<PairRow>
  {
    PairRows(stock, KeysOf(stock, PairOf))
  }

  /** The per-pair table restricted to fragmented pairs. */
  function FragmentedTable(stock: seq<StockRow>): seq<PairRow>
  {
    Filter(PairTable(stock), IsSmall)
  }

  /** `Fragmented_PCS` of a merch group: the pieces of its fragmented pairs. */
  function FragmentedPcs(stock: seq<StockRow>, g: string): int
  {
    SumWhere(FragmentedTable(stock), RowGroup, RowTotal, g)
  }

  /** A pair appears in the fragmented table exactly when it occurs in the
      report and its total is at most the threshold, and then with that
      total. */
  lemma FragmentedMembers(stock: seq<StockRow>)
    ensures forall p, t :: PairRow(p, t) in FragmentedTable(stock) <==>
      (exists j :: 0 <= j < |stock| && PairOf(stock[j]) == p) && t == PairTotal(stock, p) && t <= FragmentThreshold
  {
    var pairs := KeysOf(stock, PairOf);
    var table := PairTable(stock);
    forall p, t ensures PairRow(p, t) in FragmentedTable(stock) <==>
      (exists j :: 0 <= j < |stock| && PairOf(stock[j]) == p) && t == PairTotal(stock, p) && t <= FragmentThreshold
    {
      if PairRow(p, t) in table {
        var i :| 0 <= i < |table| && table[i] == PairRow(p, t);
        assert pairs[i] == p;
      }
      if p in pairs {
        var i :| 0 <= i < |pairs| && pairs[i] == p;
        assert table[i] == PairRow(p, PairTotal(stock, p));
      }
    }
  }

  /** The fragmented pairs of group `g` among `pairs`, in order. */
  function SmallPairs(stock: seq<StockRow>, pairs: seq<PairKey>, g: string): (r: seq<PairKey>)
    ensures forall p :: p in r ==> p in pairs && p.group == g
    ensures forall p :: p in pairs && p.group == g && PairTotal(stock, p) <= FragmentThreshold ==> p in r
  {
    if |pairs| == 0 then []
    else
      var rest := SmallPairs(stock, pairs[1..], g);
      if pairs[0].group == g && PairTotal(stock, pairs[0]) <= FragmentThreshold then [pairs[0]] + rest else rest
  }

  /** Regrouping: a group's fragmented pieces, summed over the pair table,
      are the pieces of the report rows whose pair is fragmented and in that
      group. */
  lemma {:induction false} FragmentedRegroup(stock: seq<StockRow>, pairs: seq<PairKey>, g: string)
    requires NoDups(pairs)
    ensures SumWhere(Filter(PairRows(stock, pairs), IsSmall), RowGroup, RowTotal, g)
         == SumWhereIn(stock, PairOf, Pcs, SmallPairs(stock, pairs, g))
  {
    if |pairs| == 0 {
      SumWhereInNone(stock, PairOf, Pcs, []);
    } else {
      var p := pairs[0];
      var rows := PairRows(stock, pairs);
      assert rows[1..] == PairRows(stock, pairs[1..]);
      assert NoDups(pairs[1..]) && p !in pairs[1..] by {
        forall i, j | 0 <= i < j < |pairs[1..]| ensures pairs[1..][i] != pairs[1..][j] {
          assert pairs[1..][i] == pairs[i + 1] && pairs[1..][j] == pairs[j + 1];
        }
        forall i | 0 <= i < |pairs[1..]| ensures pairs[1..][i] != p {
          assert pairs[1..][i] == pairs[i + 1];
        }
      }
      FragmentedRegroup(stock, pairs[1..], g);
      var rest := Filter(PairRows(stock, pairs[1..]), IsSmall);
      if IsSmall(rows[0]) {
        assert Filter(rows, IsSmall) == [rows[0]] + rest;
        assert ([rows[0]] + rest)[1..] == rest;
        if p.group == g {
          SumWhereInCons(stock, PairOf, Pcs, p, SmallPairs(stock, pairs[1..], g));
        }
      }
    }
  }

  /** With non-negative quantities, a group's fragmented pieces lie between
      zero and the group's total pieces. */
  lemma FragmentedWithinGroup(stock: seq<StockRow>, g: string)
    requires NonNegative(stock)
    ensures 0 <= FragmentedPcs(stock, g) <= SumWhere(stock, StockGroup, Pcs, g)
  {
    var pairs := KeysOf(stock, PairOf);
    var small := SmallPairs(stock, pairs, g);
    FragmentedRegroup(stock, pairs, g);
    SumWhereInLe(stock, PairOf, Pcs, small, StockGroup, g);
    var table := FragmentedTable(stock);
    forall i | 0 <= i < |table| ensures RowTotal(table[i]) >= 0 {
      assert table[i] in PairTable(stock);
      var j :| 0 <= j < |PairTable(stock)| && PairTable(stock)[j] == table[i];
      SumWhereBounds(stock, PairOf, Pcs, pairs[j]);
    }
    SumWhereBounds(table, RowGroup, RowTotal, g);
  }

  /** A group none of whose pairs is fragmented has no fragmented pieces. */
  lemma FragmentedAbsent(stock: seq<StockRow>, g: string)
    requires forall j :: 0 <= j < |stock| && stock[j].group == g ==> PairTotal(stock, PairOf(stock[j])) > FragmentThreshold
    ensures FragmentedPcs(stock, g) == 0
  {
    var table := FragmentedTable(stock);
    FragmentedMembers(stock);
    forall i | 0 <= i < |table| ensures RowGroup(table[i]) != g {
      var t := table[i];
      assert PairRow(t.pair, t.totalPcs) in table;
      var j :| 0 <= j < |stock| && PairOf(stock[j]) == t.pair;
    }
    SumWhereAbsent(table, RowGroup, RowTotal, g);
  }

  /** The threshold is inclusive: a lone row of 4 pieces is all fragmented,
      a lone row of 5 pieces is not. */
  lemma FragmentThresholdBoundary(r: StockRow)
    ensures Pcs(r) == 4 ==> FragmentedPcs([r], r.group) == 4
    ensures Pcs(r) == 5 ==> FragmentedPcs([r], r.group) == 0
  {
    var stock := [r];
    var p := PairOf(r);
    assert stock[1..] == [];
    assert KeysOf(stock, PairOf) == [p];
    assert SumWhere(stock[1..], PairOf, Pcs, p) == 0;
    assert stock[0] == r && PairOf(stock[0]) == p;
    assert SumWhere(stock, PairOf, Pcs, p) == Pcs(r) + SumWhere(stock[1..], PairOf, Pcs, p);
    assert PairTotal(stock, p) == Pcs(r);
    var row := PairRow(p, Pcs(r));
    assert PairTable(stock) == [row];
    assert [row][1..] == [];
    if Pcs(r) <= FragmentThreshold {
      assert FragmentedTable(stock) == [row];
      assert SumWhere([row][1..], RowGroup, RowTotal, r.group) == 0;
      assert RowGroup([row][0]) == r.group;
    } else {
      assert FragmentedTable(stock) == [];
    }
  }
}
