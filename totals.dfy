/** The summary cards: totals of clicks, cost, earnings and profit over the stored campaigns. */
module Totals {
  import opened Campaigns

  datatype Metrics = Metrics(totalClicks: int, totalCost: real, totalEarnings: real, totalProfit: real)

  const Zero := Metrics(0, 0.0, 0.0, 0.0)

  /** One step of the reduce: add a campaign's fields and its profit to the running totals. */
  function Step(acc: Metrics, c: Campaign): Metrics {
    Metrics(acc.totalClicks + c.clicks, acc.totalCost + c.cost,
            acc.totalEarnings + c.earnings, acc.totalProfit + c.Profit())
  }

  /** `Array.prototype.reduce`: fold `Step` over the list from the left. */
  function Reduce(acc: Metrics, cs: seq<Campaign>): Metrics
    decreases |cs|
  {
    if cs == [] then acc else Reduce(Step(acc, cs[0]), cs[1..])
  }

  // The reference definitions: each total is the plain sum of one field.

  function SumClicks(cs: seq<Campaign>): int {
    if cs == [] then 0 else cs[0].clicks + SumClicks(cs[1..])
  }

  function SumCost(cs: seq<Campaign>): real {
    if cs == [] then 0.0 else cs[0].cost + SumCost(cs[1..])
  }

  function SumEarnings(cs: seq<Campaign>): real {
    if cs == [] then 0.0 else cs[0].earnings + SumEarnings(cs[1..])
  }

  function SumProfit(cs: seq<Campaign>): real {
    if cs == [] then 0.0 else cs[0].Profit() + SumProfit(cs[1..])
  }

  /** The totals shown on the summary cards. */
  function TotalMetrics(cs: seq<Campaign>): (m: Metrics)
    ensures m.totalClicks == SumClicks(cs)
    ensures m.totalCost == SumCost(cs)
    ensures m.totalEarnings == SumEarnings(cs)
    ensures m.totalProfit == SumProfit(cs)
    ensures m.totalProfit == m.totalEarnings - m.totalCost
  {
    ReduceIsSum(Zero, cs);
    ProfitSumIsDifference(cs);
    Reduce(Zero, cs)
  }

  lemma {:induction false} ReduceIsSum(acc: Metrics, cs: seq<Campaign>)
    ensures Reduce(acc, cs) == Metrics(acc.totalClicks + SumClicks(cs), acc.totalCost + SumCost(cs),
                                       acc.totalEarnings + SumEarnings(cs), acc.totalProfit + SumProfit(cs))
    decreases |cs|
  {
    if cs != [] {
      ReduceIsSum(Step(acc, cs[0]), cs[1..]);
    }
  }

  /** Summing per-record profit gives total earnings minus total cost. */
  lemma {:induction false} ProfitSumIsDifference(cs: seq<Campaign>)
    ensures SumProfit(cs) == SumEarnings(cs) - SumCost(cs)
    decreases |cs|
  {
    if cs != [] {
      ProfitSumIsDifference(cs[1..]);
    }
  }

  lemma {:induction false} SumsAppend(a: seq<Campaign>, b: seq<Campaign>)
    ensures SumClicks(a + b) == SumClicks(a) + SumClicks(b)
    ensures SumCost(a + b) == SumCost(a) + SumCost(b)
    ensures SumEarnings(a + b) == SumEarnings(a) + SumEarnings(b)
    ensures SumProfit(a + b) == SumProfit(a) + SumProfit(b)
    decreases |a|
  {
    if a != [] {
      assert (a + b)[1..] == a[1..] + b;
      SumsAppend(a[1..], b);
    } else {
      assert a + b == b;
    }
  }

  /** Appending a campaign grows every total by exactly that campaign's share. */
  lemma TotalsAppend(cs: seq<Campaign>, c: Campaign)
    ensures TotalMetrics(cs + [c]) == Step(TotalMetrics(cs), c)
  {
    SumsAppend(cs, [c]);
  }

  /** The sums do not depend on the order of the list: any permutation has the same sums. */
  lemma {:induction false} SumsPermutation(a: seq<Campaign>, b: seq<Campaign>)
    requires multiset(a) == multiset(b)
    ensures SumClicks(a) == SumClicks(b) && SumCost(a) == SumCost(b)
    ensures SumEarnings(a) == SumEarnings(b) && SumProfit(a) == SumProfit(b)
    decreases |a|
  {
    if a == [] {
      assert |b| == |multiset(b)| == 0;
      return;
    }
    assert a[0] in multiset(b);
    var i :| 0 <= i < |b| && b[i] == a[0];
    MultisetRemoveAt(a, b, i);
    SumsPermutation(a[1..], b[..i] + b[i + 1..]);
    SumsRemoveAt(b, i);
  }

  lemma MultisetRemoveAt(a: seq<Campaign>, b: seq<Campaign>, i: nat)
    requires multiset(a) == multiset(b) && a != [] && i < |b| && b[i] == a[0]
    ensures multiset(a[1..]) == multiset(b[..i] + b[i + 1..])
  {
    assert b == b[..i] + [b[i]] + b[i + 1..];
    assert a == [a[0]] + a[1..];
    assert multiset(a[1..]) == multiset(a) - multiset{a[0]};
    assert multiset(b[..i] + b[i + 1..]) == multiset(b) - multiset{b[i]};
  }

  lemma SumsRemoveAt(b: seq<Campaign>, i: nat)
    requires i < |b|
    ensures var rest := b[..i] + b[i + 1..];
            && SumClicks(b) == b[i].clicks + SumClicks(rest)
            && SumCost(b) == b[i].cost + SumCost(rest)
            && SumEarnings(b) == b[i].earnings + SumEarnings(rest)
            && SumProfit(b) == b[i].Profit() + SumProfit(rest)
  {
    var tail := [b[i]] + b[i + 1..];
    assert b == b[..i] + tail;
    assert tail[1..] == b[i + 1..];
    SumsAppend(b[..i], tail);
    SumsAppend(b[..i], b[i + 1..]);
  }

  /** The totals do not depend on the order of the list: any permutation has the same totals. */
  lemma TotalsPermutation(a: seq<Campaign>, b: seq<Campaign>)
    requires multiset(a) == multiset(b)
    ensures TotalMetrics(a) == TotalMetrics(b)
  {
    SumsPermutation(a, b);
  }
}
