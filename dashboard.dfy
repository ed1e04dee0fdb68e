/** The dashboard's metrics and chart data, computed from the deal and task
    lists. */
module Dashboard {
  import opened Types
  import opened Seqs
  import opened Strings
  import opened Pipeline

  /** "Total Pipeline": the amounts of all deals added up. */
  function TotalRevenue(deals: seq<Deal>): (r: int)
    ensures r == SumAmounts(Board(deals))
  {
    BoardPartitions(deals);
    SumAmounts(deals)
  }

  /** The amounts of the Closed Won deals only. */
  function WonRevenue(deals: seq<Deal>): (r: int)
  {
    SumAmounts(DealsInStage(deals, ClosedWon))
  }

  function IsOpen(d: Deal): bool {
    d.stage != ClosedWon && d.stage != ClosedLost
  }

  /** The number of deals in neither closed stage. */
  function OpenDealsCount(deals: seq<Deal>): (r: nat)
    ensures r <= |deals|
  {
    |Filter(deals, IsOpen)|
  }

  function IsPending(t: Task): bool { !t.completed }
  function IsDone(t: Task): bool { t.completed }

  /** The number of tasks not yet completed; together with the completed ones
      they are all the tasks. */
  function PendingTasksCount(tasks: seq<Task>): (r: nat)
    ensures r + |Filter(tasks, IsDone)| == |tasks|
  {
    FilterPartition(tasks, IsPending, IsDone);
    |Filter(tasks, IsPending)|
  }

  /** One bar of the "deals by stage" chart. */
  datatype StageSummary = StageSummary(name: string, value: nat, amount: int)

  /** `stage.split(' ')[0]`: the label up to its first space. */
  function ShortName(s: DealStage): string {
    Split(StageLabel(s), ' ')[0]
  }

  function Summarise(deals: seq<Deal>, s: DealStage): StageSummary {
    var column := DealsInStage(deals, s);
    StageSummary(ShortName(s), |column|, SumAmounts(column))
  }

  /** `Object.values(DealStage).map(...)`: one summary per stage, in enum order. */
  function DealsByStage(deals: seq<Deal>): (r: seq<StageSummary>)
    ensures |r| == |AllStages|
  {
    seq(|AllStages|, i requires 0 <= i < |AllStages| => Summarise(deals, AllStages[i]))
  }

  function HasAmount(e: StageSummary): bool { e.amount > 0 }

  /** `dealsByStage.filter(d => d.amount > 0)`. */
  function SalesForecast(deals: seq<Deal>): (r: seq<StageSummary>)
    ensures |r| <= |AllStages|
  {
    Filter(DealsByStage(deals), HasAmount)
  }

  function SumValues(es: seq<StageSummary>): int
    decreases |es|
  {
    if |es| == 0 then 0 else es[0].value + SumValues(es[1..])
  }

  function SumSummaryAmounts(es: seq<StageSummary>): int
    decreases |es|
  {
    if |es| == 0 then 0 else es[0].amount + SumSummaryAmounts(es[1..])
  }

  // ---- properties ----

  /** The first word of a two-word text. */
  lemma FirstWord(a: string, b: string)
    requires ' ' !in a
    ensures Split(a + [' '] + b, ' ')[0] == a
  {
    SplitAfterSep(a, b, ' ');
  }

  /** The chart name of a stage whose label is one word. */
  lemma OneWordName(s: DealStage)
    requires ' ' !in StageLabel(s)
    ensures ShortName(s) == StageLabel(s)
  {
    SplitFree(StageLabel(s), ' ');
  }

  // The chart name of each two-word stage, one stage at a time.
  lemma NewLeadName() ensures ShortName(NewLead) == "New" {
    assert StageLabel(NewLead) == "New Lead";
    assert "New Lead" == "New" + [' '] + "Lead";
    FirstWord("New", "Lead");
  }
  lemma ProposalSentName() ensures ShortName(ProposalSent) == "Proposal" {
    assert StageLabel(ProposalSent) == "Proposal Sent";
    assert "Proposal Sent" == "Proposal" + [' '] + "Sent";
    FirstWord("Proposal", "Sent");
  }
  lemma ClosedWonName() ensures ShortName(ClosedWon) == "Closed" {
    assert StageLabel(ClosedWon) == "Closed Won";
    assert "Closed Won" == "Closed" + [' '] + "Won";
    FirstWord("Closed", "Won");
  }
  lemma QualifiedName() ensures ShortName(Qualified) == "Qualified" {
    assert StageLabel(Qualified) == "Qualified";
    assert ' ' !in "Qualified";
    OneWordName(Qualified);
  }
  lemma NegotiationName() ensures ShortName(Negotiation) == "Negotiation" {
    assert StageLabel(Negotiation) == "Negotiation";
    assert ' ' !in "Negotiation";
    OneWordName(Negotiation);
  }
  lemma ClosedLostName() ensures ShortName(ClosedLost) == "Closed" {
    assert StageLabel(ClosedLost) == "Closed Lost";
    assert "Closed Lost" == "Closed" + [' '] + "Lost";
    FirstWord("Closed", "Lost");
  }

  /** The stage names of the chart: the first word of each label, so the
      two closed stages share the name "Closed". */
  lemma ShortNames()
    ensures ShortName(NewLead) == "New"
    ensures ShortName(Qualified) == "Qualified"
    ensures ShortName(ProposalSent) == "Proposal"
    ensures ShortName(Negotiation) == "Negotiation"
    ensures ShortName(ClosedWon) == ShortName(ClosedLost) == "Closed"
  {
    NewLeadName();
    QualifiedName();
    ProposalSentName();
    NegotiationName();
    ClosedWonName();
    ClosedLostName();
  }

  /** The chart's six names in order, the last two both "Closed". */
  lemma ChartNames(deals: seq<Deal>)
    ensures DealsByStage(deals)[0].name == "New" && DealsByStage(deals)[1].name == "Qualified"
    ensures DealsByStage(deals)[2].name == "Proposal" && DealsByStage(deals)[3].name == "Negotiation"
    ensures DealsByStage(deals)[4].name == DealsByStage(deals)[5].name == "Closed"
  {
    var r := DealsByStage(deals);
    DealsByStageEntries(deals);
    assert r[0].name == ShortName(NewLead) && r[1].name == ShortName(Qualified);
    assert r[2].name == ShortName(ProposalSent) && r[3].name == ShortName(Negotiation);
    assert r[4].name == ShortName(ClosedWon) && r[5].name == ShortName(ClosedLost);
    ShortNames();
  }

  /** Every entry of the chart data is named after its stage and describes
      the deals of that stage. */
  lemma DealsByStageEntries(deals: seq<Deal>)
    ensures forall i :: 0 <= i < |AllStages| ==>
      && DealsByStage(deals)[i].name == ShortName(AllStages[i])
      && DealsByStage(deals)[i].value == |DealsInStage(deals, AllStages[i])|
      && DealsByStage(deals)[i].amount == SumAmounts(DealsInStage(deals, AllStages[i]))
  {
  }

  /** The bar counts add up to the number of deals, and the bar amounts to
      the total pipeline. */
  lemma SumsOfSix(r: seq<StageSummary>)
    requires |r| == 6
    ensures SumValues(r) == r[0].value + r[1].value + r[2].value + r[3].value + r[4].value + r[5].value
    ensures SumSummaryAmounts(r) == r[0].amount + r[1].amount + r[2].amount + r[3].amount + r[4].amount + r[5].amount
  {
    assert r[5..][1..] == [];
    assert SumValues(r[5..]) == r[5].value && SumSummaryAmounts(r[5..]) == r[5].amount;
    assert r[4..][1..] == r[5..];
    assert SumValues(r[4..]) == r[4].value + SumValues(r[5..]);
    assert SumSummaryAmounts(r[4..]) == r[4].amount + SumSummaryAmounts(r[5..]);
    assert r[3..][1..] == r[4..];
    assert SumValues(r[3..]) == r[3].value + SumValues(r[4..]);
    assert SumSummaryAmounts(r[3..]) == r[3].amount + SumSummaryAmounts(r[4..]);
    assert r[2..][1..] == r[3..];
    assert SumValues(r[2..]) == r[2].value + SumValues(r[3..]);
    assert SumSummaryAmounts(r[2..]) == r[2].amount + SumSummaryAmounts(r[3..]);
    assert r[1..][1..] == r[2..];
    assert SumValues(r[1..]) == r[1].value + SumValues(r[2..]);
    assert SumSummaryAmounts(r[1..]) == r[1].amount + SumSummaryAmounts(r[2..]);
  }

  /** The six bars, written out column by column. */
  lemma SixColumnTotals(deals: seq<Deal>)
    ensures SumValues(DealsByStage(deals)) ==
      |DealsInStage(deals, NewLead)| + |DealsInStage(deals, Qualified)| + |DealsInStage(deals, ProposalSent)|
      + |DealsInStage(deals, Negotiation)| + |DealsInStage(deals, ClosedWon)| + |DealsInStage(deals, ClosedLost)|
    ensures SumSummaryAmounts(DealsByStage(deals)) ==
      SumAmounts(DealsInStage(deals, NewLead)) + SumAmounts(DealsInStage(deals, Qualified))
      + SumAmounts(DealsInStage(deals, ProposalSent)) + SumAmounts(DealsInStage(deals, Negotiation))
      + SumAmounts(DealsInStage(deals, ClosedWon)) + SumAmounts(DealsInStage(deals, ClosedLost))
  {
    SumsOfSix(DealsByStage(deals));
  }

  lemma DealsByStageTotals(deals: seq<Deal>)
    ensures SumValues(DealsByStage(deals)) == |deals|
    ensures SumSummaryAmounts(DealsByStage(deals)) == TotalRevenue(deals)
  {
    SixColumnTotals(deals);
    BoardPartitions(deals);
    BoardSum(deals);
  }

  /** The forecast keeps, in stage order, exactly the entries with a positive
      amount, each as often as it occurs among the six. */
  lemma SalesForecastSpec(deals: seq<Deal>)
    ensures IsSubseq(SalesForecast(deals), DealsByStage(deals))
    ensures forall e :: e in SalesForecast(deals) <==> e in DealsByStage(deals) && e.amount > 0
    ensures forall e ::
              multiset(SalesForecast(deals))[e] == if e.amount > 0 then multiset(DealsByStage(deals))[e] else 0
  {
    FilterIsSubseq(DealsByStage(deals), HasAmount);
    FilterCounts(DealsByStage(deals), HasAmount);
  }

  /** The open deals are those outside the two closed columns, and the won
      revenue is the total pipeline less every other column. */
  lemma MetricsAgreeWithColumns(deals: seq<Deal>)
    ensures OpenDealsCount(deals) ==
      |DealsInStage(deals, NewLead)| + |DealsInStage(deals, Qualified)|
      + |DealsInStage(deals, ProposalSent)| + |DealsInStage(deals, Negotiation)|
    ensures OpenDealsCount(deals) + |DealsInStage(deals, ClosedWon)| + |DealsInStage(deals, ClosedLost)| == |deals|
    ensures WonRevenue(deals) == TotalRevenue(deals)
      - SumAmounts(DealsInStage(deals, NewLead)) - SumAmounts(DealsInStage(deals, Qualified))
      - SumAmounts(DealsInStage(deals, ProposalSent)) - SumAmounts(DealsInStage(deals, Negotiation))
      - SumAmounts(DealsInStage(deals, ClosedLost))
  {
    OpenCount(deals);
    BoardPartitions(deals);
    BoardSum(deals);
  }

  lemma {:induction false} OpenCount(deals: seq<Deal>)
    ensures |Filter(deals, IsOpen)| ==
      |DealsInStage(deals, NewLead)| + |DealsInStage(deals, Qualified)|
      + |DealsInStage(deals, ProposalSent)| + |DealsInStage(deals, Negotiation)|
    decreases |deals|
  {
    if |deals| > 0 {
      var d, rest := deals[0], deals[1..];
      assert deals == [d] + rest;
      OpenCount(rest);
      DealsInStageCons(d, rest, NewLead);
      DealsInStageCons(d, rest, Qualified);
      DealsInStageCons(d, rest, ProposalSent);
      DealsInStageCons(d, rest, Negotiation);
    }
  }

  /** With no negative amounts, the won revenue is at most the total pipeline. */
  lemma WonRevenueBounded(deals: seq<Deal>)
    requires forall j :: 0 <= j < |deals| ==> deals[j].amount >= 0
    ensures 0 <= WonRevenue(deals) <= TotalRevenue(deals)
  {
    SumAmountsFilterBounded(deals, InStage(ClosedWon));
  }
}
