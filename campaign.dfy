/** Campaign records and the per-row figures the dashboard derives from them. */
module Campaigns {

  datatype Option<+T> = None | Some(value: T) {
    /** The value, or `default` when there is none (the source's `x || 0`). */
    function GetOr(default: T): T {
      match this
      case Some(v) => v
      case None => default
    }
  }

  /** One stored campaign. Money is an exact `real`; nothing makes the numbers non-negative. */
  datatype Campaign = Campaign(
    id: int,
    name: string,
    startDate: string,
    endDate: string,
    clicks: int,
    cost: real,
    earnings: real)
  {
    /** Profit is derived, never stored. */
    function Profit(): real {
      earnings - cost
    }
  }

  /** The return percentage shown in each table row: profit as a percentage of cost, 0 when cost is not positive. */
  function ReturnPercent(c: Campaign): (p: real)
    ensures c.cost > 0.0 ==> p * c.cost == c.Profit() * 100.0
    ensures c.cost <= 0.0 ==> p == 0.0
    ensures p > 0.0 <==> c.cost > 0.0 && c.earnings > c.cost
    ensures p < 0.0 <==> c.cost > 0.0 && c.earnings < c.cost
    ensures c.cost > 0.0 && c.earnings >= 0.0 ==> p >= -100.0
  {
    if c.cost > 0.0 then
      var p := c.Profit() / c.cost * 100.0;
      assert p * c.cost == c.Profit() * 100.0;
      p
    else
      0.0
  }
}
