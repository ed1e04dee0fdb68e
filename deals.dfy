/** The kanban board of deals: one column per stage, the contact lookup on
    each card, the colour of the probability bar, and the guard in front of
    the AI analysis of a deal. */
module DealsBoard {
  import opened Types
  import opened Seqs
  import opened Pipeline
  import Gemini

  /** `contacts.find(c => c.id === id)`: the first contact with that id. */
  function GetContact(contacts: seq<Contact>, id: string): (r: Option<Contact>)
    ensures r.None? <==> forall j :: 0 <= j < |contacts| ==> contacts[j].id != id
    ensures r.Some? ==> r.value.id == id && r.value == contacts[FirstIndex(contacts, ContactId, id)]
  {
    var i := FirstIndex(contacts, ContactId, id);
    if i == -1 then None else Some(contacts[i])
  }

  /** The column of stage `s`: the deals in that stage, in list order. */
  function Column(deals: seq<Deal>, s: DealStage): (r: seq<Deal>)
    ensures IsSubseq(r, deals)
    ensures forall d :: d in r <==> d in deals && d.stage == s
  {
    DealsInStageOrdered(deals, s);
    DealsInStage(deals, s)
  }

  /** The badge in a column header: how many deals the column holds. */
  function Badge(deals: seq<Deal>, s: DealStage): (n: nat)
    ensures n == |Column(deals, s)|
    ensures n <= |deals|
  {
    |DealsInStage(deals, s)|
  }

  /** The columns, in the order the board shows them. */
  function Columns(deals: seq<Deal>): (r: seq<seq<Deal>>)
    ensures |r| == |AllStages|
    ensures forall i :: 0 <= i < |r| ==> r[i] == Column(deals, AllStages[i])
  {
    seq(|AllStages|, i requires 0 <= i < |AllStages| => Column(deals, AllStages[i]))
  }

  /** Every deal is in exactly one column: the one of its own stage. */
  lemma {:induction false} EveryDealInExactlyOneColumn(deals: seq<Deal>, d: Deal)
    requires d in deals
    ensures d in Columns(deals)[StageIndex(d.stage)]
    ensures forall i :: 0 <= i < |AllStages| && d in Columns(deals)[i] ==> i == StageIndex(d.stage)
  {
    AllStagesEnumerates();
  }

  /** The badges add up to the number of deals, and the columns laid end to
      end are a rearrangement of the deal list. */
  lemma ColumnsPartitionDeals(deals: seq<Deal>)
    ensures Badge(deals, NewLead) + Badge(deals, Qualified) + Badge(deals, ProposalSent)
            + Badge(deals, Negotiation) + Badge(deals, ClosedWon) + Badge(deals, ClosedLost) == |deals|
    ensures var cs := Columns(deals);
            multiset(cs[0] + cs[1] + cs[2] + cs[3] + cs[4] + cs[5]) == multiset(deals)
  {
    BoardPartitions(deals);
  }

  /** The three colours of the probability bar. */
  datatype Bucket = Green | Amber | Red

  /** `p > 70 ? green : p > 40 ? amber : red`. */
  function ProbabilityBucket(p: int): (b: Bucket)
    ensures b == Green <==> p > 70
    ensures b == Amber <==> 40 < p <= 70
    ensures b == Red <==> p <= 40
  {
    if p > 70 then Green else if p > 40 then Amber else Red
  }

  /** The bar's class for each bucket. */
  function BucketClass(b: Bucket): string {
    match b
    case Green => "bg-emerald-500"
    case Amber => "bg-amber-500"
    case Red => "bg-red-500"
  }

  /** The three buckets get three different bar colours. */
  lemma BucketClassesDistinct()
    ensures forall b, c :: b != c ==> BucketClass(b) != BucketClass(c)
  {
  }

  function BucketRank(b: Bucket): nat {
    match b
    case Red => 0
    case Amber => 1
    case Green => 2
  }

  /** A higher probability never gets a worse colour. */
  lemma BucketMonotone(p: int, q: int)
    requires p <= q
    ensures BucketRank(ProbabilityBucket(p)) <= BucketRank(ProbabilityBucket(q))
  {
  }

  /** `handleAnalyzeDeal`, as its effect on the cache of analyses shown on the
      cards: without a contact for the deal nothing happens; otherwise the
      service's answer for `reply` is stored under the deal's id. */
  function HandleAnalyzeDeal(cache: map<string, Gemini.Analysis>, contacts: seq<Contact>, deal: Deal,
                             reply: Gemini.Reply, parse: string -> Option<Gemini.Analysis>)
    : (r: map<string, Gemini.Analysis>)
    ensures GetContact(contacts, deal.contactId).None? ==> r == cache
    ensures GetContact(contacts, deal.contactId).Some? ==>
              && deal.id in r && r[deal.id] == Gemini.AnalyzeDeal(reply, parse)
              && r.Keys == cache.Keys + {deal.id}
    ensures forall k :: k in cache && k != deal.id ==> k in r && r[k] == cache[k]
  {
    match GetContact(contacts, deal.contactId)
    case None => cache
    case Some(_) => cache[deal.id := Gemini.AnalyzeDeal(reply, parse)]
  }
}
