/** Pre-trade risk checks (`trading/src/risk.rs`). */
module Risk {
  import opened Types
  import opened Arithmetic
  import opened Position

  datatype RiskCheckResult = Allowed | OrderTooLarge | PositionTooLarge | LossTooLarge | OpenOrdersTooMany

  datatype RiskLimits = RiskLimits(maxOrderQty: Qty, maxPosition: int, maxLoss: int, maxOpenOrders: u32)

  // ---------------------------------------------------------------- whose limits

  datatype LimitTable = LimitTable(limits: map<TickerId, RiskLimits>, defaults: RiskLimits)

  datatype LimitChange = SetFor(ticker: TickerId, limits: RiskLimits) | RemoveFor(ticker: TickerId)

  function LimitsFor(table: LimitTable, ticker: TickerId): RiskLimits {
    if ticker in table.limits then table.limits[ticker] else table.defaults
  }

  function Change(table: LimitTable, c: LimitChange): LimitTable {
    match c
    case SetFor(t, l) => table.(limits := table.limits[t := l])
    case RemoveFor(t) => table.(limits := table.limits - {t})
  }

  class RiskManager {
    var limits: map<TickerId, RiskLimits>
    const defaults: RiskLimits

    function Table(): LimitTable
      reads this
    {
      LimitTable(limits, defaults)
    }

    constructor (defaults: RiskLimits)
      ensures Table() == LimitTable(map[], defaults)
    {
      limits, this.defaults := map[], defaults;
    }

    method SetLimits(t: TickerId, l: RiskLimits)
      modifies this
      ensures Table() == Change(old(Table()), SetFor(t, l))
    {
      limits := limits[t := l];
    }

    method RemoveLimits(t: TickerId)
      modifies this
      ensures Table() == Change(old(Table()), RemoveFor(t))
    {
      limits := limits - {t};
    }
  }

  function Configured(defaults: RiskLimits, cs: seq<LimitChange>): LimitTable {
    if cs == [] then LimitTable(map[], defaults) else Change(Configured(defaults, cs[..|cs| - 1]), cs[|cs| - 1])
  }

  /** The limits of a ticker after some changes: those of its last change if that set them,
      and the defaults if it removed them or there was none. */
  function InForce(defaults: RiskLimits, cs: seq<LimitChange>, t: TickerId): RiskLimits {
    if cs == [] then defaults
    else if cs[|cs| - 1].ticker != t then InForce(defaults, cs[..|cs| - 1], t)
    else if cs[|cs| - 1].SetFor? then cs[|cs| - 1].limits
    else defaults
  }

  lemma {:induction false} TableHoldsLimitsInForce(defaults: RiskLimits, cs: seq<LimitChange>, t: TickerId)
    ensures Configured(defaults, cs).defaults == defaults
    ensures LimitsFor(Configured(defaults, cs), t) == InForce(defaults, cs, t)
  {
    if cs == [] {
    } else {
      TableHoldsLimitsInForce(defaults, cs[..|cs| - 1], t);
    }
  }

  // ---------------------------------------------------------------- the checks

  /** Selling when long or buying when short; such orders skip the position limit. */
  predicate RiskReducing(p: PositionState, side: Side) {
    if side.Buy? then p.position < 0 else p.position > 0
  }

  /** The position if every open order on the side and the new one were filled. */
  function Projected(p: PositionState, side: Side, qty: nat): int {
    if side.Buy? then p.position + p.openBuyQty + qty else p.position - p.openSellQty - qty
  }

  function CheckOrder(table: LimitTable, p: PositionState, side: Side, qty: nat): (r: RiskCheckResult)
    ensures var l := LimitsFor(table, p.ticker);
      r == Allowed <==>
        && qty <= l.maxOrderQty
        && (RiskReducing(p, side) || -l.maxPosition <= Projected(p, side, qty) <= l.maxPosition)
        && Pnl(p) + l.maxLoss >= 0
  {
    var l := LimitsFor(table, p.ticker);
    if qty > l.maxOrderQty then OrderTooLarge
    else if !RiskReducing(p, side) && Abs(Projected(p, side, qty)) > l.maxPosition then PositionTooLarge
    else if Pnl(p) < -l.maxLoss then LossTooLarge
    else Allowed
  }

  function CheckOpenOrders(table: LimitTable, ticker: TickerId, openOrders: nat): (r: RiskCheckResult)
    ensures r == Allowed <==> openOrders < LimitsFor(table, ticker).maxOpenOrders
  {
    if openOrders >= LimitsFor(table, ticker).maxOpenOrders then OpenOrdersTooMany else Allowed
  }

  /** The combined check allows an order exactly when both parts do; the count is reported first. */
  function CheckOrderWithOpenOrders(table: LimitTable, p: PositionState, side: Side, qty: nat, openOrders: nat):
    (r: RiskCheckResult)
    ensures r == Allowed <==> CheckOpenOrders(table, p.ticker, openOrders) == Allowed == CheckOrder(table, p, side, qty)
    ensures r == OpenOrdersTooMany <==> openOrders >= LimitsFor(table, p.ticker).maxOpenOrders
  {
    var open := CheckOpenOrders(table, p.ticker, openOrders);
    if open != Allowed then open else CheckOrder(table, p, side, qty)
  }

  // ---------------------------------------------------------------- verdicts

  /** The order, together with all open ones on its side, would take the position past the
      limit, and it does not reduce the position as it stands. */
  predicate PastLimit(l: RiskLimits, position: int, openBuys: nat, openSells: nat, side: Side, qty: nat) {
    match side
    case Buy => position >= 0 && position + openBuys + qty > l.maxPosition
    case Sell => position <= 0 && openSells + qty - position > l.maxPosition
  }

  /** The verdict after any changes of limits is that of the limits in force for the
      position's own ticker, and the reason given is the first that applies: too many open
      orders, order too large, position too large, loss too large. */
  lemma VerdictOfLimitsInForce(
    defaults: RiskLimits, cs: seq<LimitChange>, p: PositionState, side: Side, qty: nat, openOrders: nat)
    ensures var l := InForce(defaults, cs, p.ticker);
      var verdict := CheckOrderWithOpenOrders(Configured(defaults, cs), p, side, qty, openOrders);
      var many, large, past, loss :=
        openOrders >= l.maxOpenOrders, qty > l.maxOrderQty,
        PastLimit(l, p.position, p.openBuyQty, p.openSellQty, side, qty), p.realized + p.unrealized + l.maxLoss < 0;
      && (verdict == OpenOrdersTooMany <==> many)
      && (verdict == OrderTooLarge <==> !many && large)
      && (verdict == PositionTooLarge <==> !many && !large && past)
      && (verdict == LossTooLarge <==> !many && !large && !past && loss)
      && (verdict == Allowed <==> !many && !large && !past && !loss)
  {
    TableHoldsLimitsInForce(defaults, cs, p.ticker);
  }

  /** A change for one ticker leaves every verdict on another as it was. */
  lemma OtherTickersUntouched(
    defaults: RiskLimits, cs: seq<LimitChange>, c: LimitChange, p: PositionState, side: Side, qty: nat, openOrders: nat)
    requires c.ticker != p.ticker
    ensures CheckOrderWithOpenOrders(Configured(defaults, cs + [c]), p, side, qty, openOrders)
      == CheckOrderWithOpenOrders(Configured(defaults, cs), p, side, qty, openOrders)
  {
    assert (cs + [c])[..|cs|] == cs;
    TableHoldsLimitsInForce(defaults, cs, p.ticker);
    TableHoldsLimitsInForce(defaults, cs + [c], p.ticker);
  }
}
