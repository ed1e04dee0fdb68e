/** The per-stage view of the deal list that both the dashboard and the
    kanban board are built from: `deals.filter(d => d.stage === stage)` for
    every stage, in the order of the stage enum. */
module Pipeline {
  import opened Types
  import opened Seqs

  function InStage(s: DealStage): Deal -> bool {
    (d: Deal) => d.stage == s
  }

  /** `deals.filter(d => d.stage === s)`: the deals in stage `s`, in list order. */
  function DealsInStage(deals: seq<Deal>, s: DealStage): (r: seq<Deal>)
    ensures |r| <= |deals|
    ensures forall d :: d in r <==> d in deals && d.stage == s
  {
    Filter(deals, InStage(s))
  }

  /** The filter keeps list order: a column is a subsequence of the deal list. */
  lemma DealsInStageOrdered(deals: seq<Deal>, s: DealStage)
    ensures IsSubseq(DealsInStage(deals, s), deals)
  {
    FilterIsSubseq(deals, InStage(s));
  }

  /** `reduce((sum, d) => sum + d.amount, 0)`. */
  function SumAmounts(deals: seq<Deal>): int
    decreases |deals|
  {
    if |deals| == 0 then 0 else deals[0].amount + SumAmounts(deals[1..])
  }

  /** The sum of a concatenation is the sum of the parts. */
  lemma {:induction false} SumAmountsAppend(a: seq<Deal>, b: seq<Deal>)
    ensures SumAmounts(a + b) == SumAmounts(a) + SumAmounts(b)
    decreases |a|
  {
    if |a| == 0 {
      assert a + b == b;
    } else {
      assert (a + b)[1..] == a[1..] + b;
      SumAmountsAppend(a[1..], b);
    }
  }

  /** With no negative amounts, a filtered list sums to at most the whole. */
  lemma {:induction false} SumAmountsFilterBounded(deals: seq<Deal>, p: Deal -> bool)
    requires forall j :: 0 <= j < |deals| ==> deals[j].amount >= 0
    ensures 0 <= SumAmounts(Filter(deals, p)) <= SumAmounts(deals)
    decreases |deals|
  {
    if |deals| > 0 {
      SumAmountsFilterBounded(deals[1..], p);
      if p(deals[0]) {
        var f := Filter(deals, p);
        assert f[1..] == Filter(deals[1..], p);
      }
    }
  }

  /** The six stage columns, one after the other. */
  function Board(deals: seq<Deal>): seq<Deal> {
    DealsInStage(deals, NewLead) + DealsInStage(deals, Qualified)
      + DealsInStage(deals, ProposalSent) + DealsInStage(deals, Negotiation)
      + DealsInStage(deals, ClosedWon) + DealsInStage(deals, ClosedLost)
  }

  /** A deal put in front of the list goes to the front of its own column and
      leaves the other columns as they were. */
  lemma {:induction false} DealsInStageCons(d: Deal, rest: seq<Deal>, s: DealStage)
    ensures DealsInStage([d] + rest, s) == if d.stage == s then [d] + DealsInStage(rest, s) else DealsInStage(rest, s)
  {
    assert ([d] + rest)[1..] == rest;
  }

  /** A deal put in front of the list adds itself, once, to the board. */
  lemma BoardCons(d: Deal, rest: seq<Deal>)
    ensures multiset(Board([d] + rest)) == multiset(Board(rest)) + multiset{d}
  {
    var c0, c1, c2 := DealsInStage(rest, NewLead), DealsInStage(rest, Qualified), DealsInStage(rest, ProposalSent);
    var c3, c4, c5 := DealsInStage(rest, Negotiation), DealsInStage(rest, ClosedWon), DealsInStage(rest, ClosedLost);
    DealsInStageCons(d, rest, NewLead);
    DealsInStageCons(d, rest, Qualified);
    DealsInStageCons(d, rest, ProposalSent);
    DealsInStageCons(d, rest, Negotiation);
    DealsInStageCons(d, rest, ClosedWon);
    DealsInStageCons(d, rest, ClosedLost);
    assert multiset(Board(rest)) == multiset(c0) + multiset(c1) + multiset(c2) + multiset(c3) + multiset(c4) + multiset(c5);
  }

  /** A deal put in front of the list adds its amount to its own column's total only. */
  lemma {:induction false} ColumnSumCons(d: Deal, rest: seq<Deal>, s: DealStage)
    ensures SumAmounts(DealsInStage([d] + rest, s)) ==
      SumAmounts(DealsInStage(rest, s)) + (if d.stage == s then d.amount else 0)
  {
    DealsInStageCons(d, rest, s);
    var c := DealsInStage(rest, s);
    assert ([d] + c)[1..] == c;
  }

  /** A deal put in front of the list adds its amount to the board's total. */
  lemma BoardConsSum(d: Deal, rest: seq<Deal>)
    ensures SumAmounts(Board([d] + rest)) == d.amount + SumAmounts(Board(rest))
  {
    ColumnSumCons(d, rest, NewLead);
    ColumnSumCons(d, rest, Qualified);
    ColumnSumCons(d, rest, ProposalSent);
    ColumnSumCons(d, rest, Negotiation);
    ColumnSumCons(d, rest, ClosedWon);
    ColumnSumCons(d, rest, ClosedLost);
    BoardSum([d] + rest);
    BoardSum(rest);
  }

  /** The columns together hold every deal exactly as often as the list does. */
  lemma {:induction false} BoardIsPermutation(deals: seq<Deal>)
    ensures multiset(Board(deals)) == multiset(deals)
    decreases |deals|
  {
    if |deals| > 0 {
      var d, rest := deals[0], deals[1..];
      assert deals == [d] + rest;
      BoardIsPermutation(rest);
      BoardCons(d, rest);
    }
  }

  /** The per-stage amounts add up to the whole pipeline. */
  lemma {:induction false} BoardKeepsSum(deals: seq<Deal>)
    ensures SumAmounts(Board(deals)) == SumAmounts(deals)
    decreases |deals|
  {
    if |deals| > 0 {
      var d, rest := deals[0], deals[1..];
      assert deals == [d] + rest;
      BoardKeepsSum(rest);
      BoardConsSum(d, rest);
    }
  }

  /** The columns partition the deal list: the board is a permutation of the
      list, as long as it, and carries the same total amount. */
  lemma BoardPartitions(deals: seq<Deal>)
    ensures multiset(Board(deals)) == multiset(deals)
    ensures |Board(deals)| == |deals|
    ensures SumAmounts(Board(deals)) == SumAmounts(deals)
  {
    BoardIsPermutation(deals);
    BoardKeepsSum(deals);
    assert |multiset(Board(deals))| == |Board(deals)|;
  }

  /** The count and the amount of the concatenated board, column by column. */
  lemma BoardSum(deals: seq<Deal>)
    ensures SumAmounts(Board(deals)) ==
      SumAmounts(DealsInStage(deals, NewLead)) + SumAmounts(DealsInStage(deals, Qualified))
      + SumAmounts(DealsInStage(deals, ProposalSent)) + SumAmounts(DealsInStage(deals, Negotiation))
      + SumAmounts(DealsInStage(deals, ClosedWon)) + SumAmounts(DealsInStage(deals, ClosedLost))
  {
    var c0, c1, c2 := DealsInStage(deals, NewLead), DealsInStage(deals, Qualified), DealsInStage(deals, ProposalSent);
    var c3, c4, c5 := DealsInStage(deals, Negotiation), DealsInStage(deals, ClosedWon), DealsInStage(deals, ClosedLost);
    SumAmountsAppend(c0, c1);
    SumAmountsAppend(c0 + c1, c2);
    SumAmountsAppend(c0 + c1 + c2, c3);
    SumAmountsAppend(c0 + c1 + c2 + c3, c4);
    SumAmountsAppend(c0 + c1 + c2 + c3 + c4, c5);
  }

  /** Every deal sits in the column of its own stage and in no other. */
  lemma EachDealInOneColumn(deals: seq<Deal>, d: Deal)
    requires d in deals
    ensures d in DealsInStage(deals, d.stage)
    ensures forall s :: s != d.stage ==> d !in DealsInStage(deals, s)
  {
  }
}
