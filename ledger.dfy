/**
 * The dashboard's campaign ledger: the stored list of campaigns and the sort
 * selection, with the handlers that change them (submitting the form, deleting
 * a row, choosing a column header) and the derived view and totals.
 */
module Ledger {
  import opened Campaigns
  import opened Sorting
  import opened Totals

  /** The add-campaign form as typed: every field is text. */
  datatype Form = Form(name: string, startDate: string, endDate: string,
                       clicks: string, cost: string, earnings: string)

  /**
   * What `parseInt` of the clicks text and `parseFloat` of the cost and
   * earnings texts returned; `None` stands for NaN.
   */
  datatype Parsed = Parsed(clicks: Option<int>, cost: Option<real>, earnings: Option<real>)

  /** `parseInt` and `parseFloat` of the empty text are NaN. */
  predicate EmptyParsesAsNaN(form: Form, parsed: Parsed) {
    && (form.clicks == "" ==> parsed.clicks == None)
    && (form.cost == "" ==> parsed.cost == None)
    && (form.earnings == "" ==> parsed.earnings == None)
  }

  datatype Outcome = Added | Rejected(message: string)

  const RequiredFieldsMessage := "Please fill in all required fields"

  /** Name, start date and end date are all filled in. */
  predicate Complete(form: Form) {
    form.name != "" && form.startDate != "" && form.endDate != ""
  }

  /** The record a valid form becomes; a number that did not parse becomes 0. */
  function NewCampaign(form: Form, parsed: Parsed, id: int): Campaign {
    Campaign(id, form.name, form.startDate, form.endDate,
             parsed.clicks.GetOr(0), parsed.cost.GetOr(0.0), parsed.earnings.GetOr(0.0))
  }

  /** Numeric fields left empty are stored as 0. */
  lemma EmptyNumbersBecomeZero(form: Form, parsed: Parsed, id: int)
    requires EmptyParsesAsNaN(form, parsed)
    ensures form.clicks == "" ==> NewCampaign(form, parsed, id).clicks == 0
    ensures form.cost == "" ==> NewCampaign(form, parsed, id).cost == 0.0
    ensures form.earnings == "" ==> NewCampaign(form, parsed, id).earnings == 0.0
  {
  }

  /** The form with clicks "abc", cost "" and earnings "10" yields clicks 0, cost 0, earnings 10, profit 10. */
  lemma UnparsedNumbersExample(id: int)
    ensures var c := NewCampaign(Form("X", "2024-01-01", "2024-01-02", "abc", "", "10"),
                                 Parsed(None, None, Some(10.0)), id);
            c.clicks == 0 && c.cost == 0.0 && c.earnings == 10.0 && c.Profit() == 10.0
  {
  }

  // ---------------------------------------------------------------------------
  // Deleting by id

  /** The records whose id differs from `id`, in their stored order. */
  function WithoutId(cs: seq<Campaign>, id: int): seq<Campaign> {
    if cs == [] then []
    else (if cs[0].id != id then [cs[0]] else []) + WithoutId(cs[1..], id)
  }

  /**
   * Deleting keeps exactly the records whose id differs, each as often as it
   * was stored, and drops every record carrying `id`.
   */
  lemma {:induction false} WithoutIdContents(cs: seq<Campaign>, id: int)
    ensures forall c :: multiset(WithoutId(cs, id))[c] == if c.id == id then 0 else multiset(cs)[c]
    ensures forall c :: c in WithoutId(cs, id) <==> c in cs && c.id != id
    decreases |cs|
  {
    if cs != [] {
      WithoutIdContents(cs[1..], id);
      assert cs == [cs[0]] + cs[1..];
    }
  }

  /** Deleting keeps relative order: it deletes from each part of the list separately. */
  lemma {:induction false} WithoutIdConcat(a: seq<Campaign>, b: seq<Campaign>, id: int)
    ensures WithoutId(a + b, id) == WithoutId(a, id) + WithoutId(b, id)
    decreases |a|
  {
    if a == [] {
      assert a + b == b;
    } else {
      assert (a + b)[0] == a[0] && (a + b)[1..] == a[1..] + b;
      WithoutIdConcat(a[1..], b, id);
    }
  }

  /** Deleting an id no record carries changes nothing. */
  lemma {:induction false} WithoutAbsentId(cs: seq<Campaign>, id: int)
    requires forall c :: c in cs ==> c.id != id
    ensures WithoutId(cs, id) == cs
    decreases |cs|
  {
    if cs != [] {
      assert cs == [cs[0]] + cs[1..];
      WithoutAbsentId(cs[1..], id);
    }
  }

  /** Deleting the same id twice is deleting it once. */
  lemma {:induction false} WithoutIdIdempotent(cs: seq<Campaign>, id: int)
    ensures WithoutId(WithoutId(cs, id), id) == WithoutId(cs, id)
  {
    WithoutIdContents(cs, id);
    WithoutAbsentId(WithoutId(cs, id), id);
  }

  /** Deleting a campaign just added restores the list, provided its id was not in use. */
  lemma DeleteUndoesAdd(cs: seq<Campaign>, c: Campaign)
    requires forall e :: e in cs ==> e.id != c.id
    ensures WithoutId(cs + [c], c.id) == cs
  {
    WithoutIdConcat(cs, [c], c.id);
    WithoutAbsentId(cs, c.id);
  }

  /**
   * Ids are not guaranteed unique: when two campaigns share one, deleting
   * either row deletes both.
   */
  lemma SharedIdDeletesBoth(a: Campaign, b: Campaign)
    requires a.id == b.id
    ensures WithoutId([a, b], b.id) == []
  {
    assert [a, b][1..] == [b] && [b][1..] == [];
    assert WithoutId([b], b.id) == [];
  }

  /** Adding A, then B with another id, then deleting A leaves exactly B. */
  lemma AddAddDelete(a: Campaign, b: Campaign)
    requires a.id != b.id
    ensures WithoutId([] + [a] + [b], a.id) == [b]
    ensures TotalMetrics(WithoutId([] + [a] + [b], a.id)) == Metrics(b.clicks, b.cost, b.earnings, b.Profit())
  {
    assert [] + [a] + [b] == [a, b] && [a, b][1..] == [b] && [b][1..] == [];
    assert WithoutId([b], a.id) == [b] + WithoutId([], a.id) == [b];
    assert WithoutId([a, b], a.id) == [b];
    assert SumClicks([b]) == b.clicks && SumCost([b]) == b.cost;
    assert SumEarnings([b]) == b.earnings && SumProfit([b]) == b.Profit();
  }

  // ---------------------------------------------------------------------------
  // The view and the summary

  /** The summary cards show the same totals whatever column the table is sorted by. */
  lemma SummaryIgnoresSort(cs: seq<Campaign>, f: SortField, d: Direction)
    ensures TotalMetrics(SortedView(cs, f, d)) == TotalMetrics(cs)
  {
    TotalsPermutation(SortedView(cs, f, d), cs);
  }

  function ByProfit(id: int, earnings: real): Campaign {
    Campaign(id, "C", "2024-01-01", "2024-01-02", 0, 0.0, earnings)
  }

  /** Profits 10, -5, 100 sort to 100, 10, -5 descending. */
  lemma ProfitOrderDescending()
    ensures SortedView([ByProfit(1, 10.0), ByProfit(2, -5.0), ByProfit(3, 100.0)], Profit, Desc)
         == [ByProfit(3, 100.0), ByProfit(1, 10.0), ByProfit(2, -5.0)]
  {
    var a, b, c := ByProfit(1, 10.0), ByProfit(2, -5.0), ByProfit(3, 100.0);
    assert [a, b, c][1..] == [b, c] && [b, c][1..] == [c] && [c, b][1..] == [b];
    assert Compare(Profit, Desc, c, b) == -1;
    assert Compare(Profit, Desc, c, a) == -1;
    assert Compare(Profit, Desc, b, a) == 1;
    assert Insert(Profit, Desc, b, [c]) == [c, b];
    assert Insert(Profit, Desc, a, [b]) == [a, b];
    assert Insert(Profit, Desc, a, [c, b]) == [c, a, b];
    assert SortedView([c], Profit, Desc) == [c];
    assert SortedView([b, c], Profit, Desc) == [c, b];
  }

  /** Profits 10, -5, 100 sort to -5, 10, 100 ascending. */
  lemma ProfitOrderAscending()
    ensures SortedView([ByProfit(1, 10.0), ByProfit(2, -5.0), ByProfit(3, 100.0)], Profit, Asc)
         == [ByProfit(2, -5.0), ByProfit(1, 10.0), ByProfit(3, 100.0)]
  {
    var a, b, c := ByProfit(1, 10.0), ByProfit(2, -5.0), ByProfit(3, 100.0);
    assert [a, b, c][1..] == [b, c] && [b, c][1..] == [c];
    assert Compare(Profit, Asc, c, b) == 1;
    assert Compare(Profit, Asc, b, a) == -1;
    assert Compare(Profit, Asc, c, a) == 1;
    assert Insert(Profit, Asc, b, [c]) == [b, c];
    assert Insert(Profit, Asc, a, [c]) == [a, c];
    assert Insert(Profit, Asc, a, [b, c]) == [b, a, c];
    assert SortedView([c], Profit, Asc) == [c];
    assert SortedView([b, c], Profit, Asc) == [b, c];
  }

  /**
   * With a tie, the descending view is not the ascending view reversed: both
   * keep the tied campaigns in stored order.
   */
  lemma DescendingIsNotReversedAscending()
    ensures var a, b := ByProfit(1, 10.0), ByProfit(2, 10.0);
            SortedView([a, b], Profit, Desc) == [a, b] == SortedView([a, b], Profit, Asc)
            && SortedView([a, b], Profit, Desc) != [b, a]
  {
    var a, b := ByProfit(1, 10.0), ByProfit(2, 10.0);
    assert [a, b][1..] == [b];
    assert SortedView([b], Profit, Desc) == [b];
    assert SortedView([b], Profit, Asc) == [b];
  }

  /** The three campaigns the dashboard starts with. */
  function Seed(): seq<Campaign> {
    [ Campaign(1, "Summer Sale 2024", "2024-06-01", "2024-08-31", 10, 25.0, 50.0),
      Campaign(2, "Black Friday Special", "2024-11-24", "2024-11-30", 15, 30.0, 100.0),
      Campaign(3, "New Year Campaign", "2024-12-26", "2025-01-05", 20, 50.0, 200.0) ]
  }

  /** The starting summary: 45 clicks, cost 105, earnings 350, profit 245. */
  lemma SeedTotals()
    ensures TotalMetrics(Seed()) == Metrics(45, 105.0, 350.0, 245.0)
  {
    var s := Seed();
    assert s[1..][1..][1..] == [];
  }

  /** The starting table, sorted by name ascending: Black Friday Special, New Year Campaign, Summer Sale 2024. */
  lemma SeedView()
    ensures SortedView(Seed(), Name, Asc) == [Seed()[1], Seed()[2], Seed()[0]]
  {
    var s := Seed();
    assert s[1..] == [s[1], s[2]] && s[1..][1..] == [s[2]];
    assert Compare(Name, Asc, s[2], s[1]) == 1;
    assert Compare(Name, Asc, s[1], s[0]) == -1;
    assert Compare(Name, Asc, s[2], s[0]) == -1;
    assert Insert(Name, Asc, s[1], [s[2]]) == [s[1], s[2]];
    assert Insert(Name, Asc, s[0], [s[2]]) == [s[2], s[0]];
    assert Insert(Name, Asc, s[0], [s[1], s[2]]) == [s[1], s[2], s[0]];
  }

  // ---------------------------------------------------------------------------
  // The component state

  class CampaignLedger {
    var campaigns: seq<Campaign>
    var sortField: SortField
    var sortDirection: Direction

    /** The dashboard's starting state: the seed campaigns, sorted by name ascending. */
    constructor ()
      ensures campaigns == Seed()
      ensures SortState(sortField, sortDirection) == InitialSort
    {
      campaigns := Seed();
      sortField := Name;
      sortDirection := Asc;
    }

    /** The rows of the table. */
    function SortedCampaigns(): seq<Campaign>
      reads this
    {
      SortedView(campaigns, sortField, sortDirection)
    }

    /** The summary cards. */
    function Summary(): Metrics
      reads this
    {
      TotalMetrics(campaigns)
    }

    /**
     * Submitting the form: rejected with an alert, changing nothing, when a
     * required field is empty; otherwise the new record is appended.
     */
    method HandleSubmit(form: Form, parsed: Parsed, id: int) returns (outcome: Outcome)
      modifies this`campaigns
      ensures outcome.Rejected? <==> !Complete(form)
      ensures outcome.Rejected? ==> outcome.message == RequiredFieldsMessage && campaigns == old(campaigns)
      ensures outcome.Added? ==> campaigns == old(campaigns) + [NewCampaign(form, parsed, id)]
      ensures outcome.Added? ==>
                var c := campaigns[|campaigns| - 1];
                && c.id == id && c.name == form.name
                && c.startDate == form.startDate && c.endDate == form.endDate
                && c.clicks == (if parsed.clicks.Some? then parsed.clicks.value else 0)
                && c.cost == (if parsed.cost.Some? then parsed.cost.value else 0.0)
                && c.earnings == (if parsed.earnings.Some? then parsed.earnings.value else 0.0)
      ensures outcome.Added? ==> Summary() == Step(old(Summary()), NewCampaign(form, parsed, id))
    {
      if !Complete(form) {
        return Rejected(RequiredFieldsMessage);
      }
      TotalsAppend(campaigns, NewCampaign(form, parsed, id));
      campaigns := campaigns + [NewCampaign(form, parsed, id)];
      outcome := Added;
    }

    /** Deleting a row: every record carrying `id` is dropped, the rest keep their order. */
    method DeleteCampaign(id: int)
      modifies this`campaigns
      ensures campaigns == WithoutId(old(campaigns), id)
    {
      campaigns := WithoutId(campaigns, id);
    }

    /** Choosing a column header; the stored list is not touched. */
    method HandleSort(field: SortField)
      modifies this`sortField, this`sortDirection
      ensures SortState(sortField, sortDirection) == Toggle(old(SortState(sortField, sortDirection)), field)
      ensures campaigns == old(campaigns)
    {
      if sortField == field {
        sortDirection := Flip(sortDirection);
      } else {
        sortField := field;
        sortDirection := Asc;
      }
    }
  }

  /**
   * The add-add-delete scenario through the handlers themselves: from the
   * starting dashboard, submitting two complete forms with different ids not
   * used by the seed and then deleting the first id leaves the seed followed
   * by the second campaign.
   */
  method AddAddDeleteThroughHandlers(formA: Form, parsedA: Parsed, idA: int,
                                     formB: Form, parsedB: Parsed, idB: int)
    returns (rows: seq<Campaign>)
    requires Complete(formA) && Complete(formB)
    requires idA != idB && forall c :: c in Seed() ==> c.id != idA
    ensures rows == Seed() + [NewCampaign(formB, parsedB, idB)]
  {
    var ledger := new CampaignLedger();
    var first := ledger.HandleSubmit(formA, parsedA, idA);
    var second := ledger.HandleSubmit(formB, parsedB, idB);
    var a, b := NewCampaign(formA, parsedA, idA), NewCampaign(formB, parsedB, idB);
    assert ledger.campaigns == Seed() + ([a] + [b]);
    ledger.DeleteCampaign(idA);
    WithoutIdConcat(Seed(), [a] + [b], idA);
    WithoutAbsentId(Seed(), idA);
    AddAddDelete(a, b);
    assert [] + [a] + [b] == [a] + [b];
    rows := ledger.campaigns;
  }
}
