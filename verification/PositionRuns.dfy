/** What holds over every run of fills and marks of one position: profit is conserved up to
    the exact truncation of the average price, and the average stays among the entry prices. */
module PositionRuns {
  import opened Types
  import opened Arithmetic
  import opened Position

  datatype Event = Filled(side: Side, qty: nat, price: int) | Marked(price: int)

  function Apply(p: PositionState, e: Event): PositionState {
    match e
    case Filled(side, qty, price) => Fill(p, side, qty, price)
    case Marked(price) => Mark(p, price)
  }

  function Run(ticker: TickerId, es: seq<Event>): PositionState {
    if es == [] then NewPosition(ticker) else Apply(Run(ticker, es[..|es| - 1]), es[|es| - 1])
  }

  /** Cash received minus cash paid. */
  function Cash(es: seq<Event>): int {
    if es == [] then 0
    else
      var e := es[|es| - 1];
      Cash(es[..|es| - 1]) - (if e.Filled? then Signed(e.side, e.qty) * e.price else 0)
  }

  function NetQty(es: seq<Event>): int {
    if es == [] then 0
    else
      var e := es[|es| - 1];
      NetQty(es[..|es| - 1]) + (if e.Filled? then Signed(e.side, e.qty) else 0)
  }

  function Traded(es: seq<Event>): nat {
    if es == [] then 0
    else Traded(es[..|es| - 1]) + (if es[|es| - 1].Filled? then es[|es| - 1].qty else 0)
  }

  /** The price of the last fill or mark. */
  function LastPrice(es: seq<Event>): int {
    if es == [] then 0 else es[|es| - 1].price
  }

  /** What one event loses to the truncated average: nothing, unless it is a fill that
      adds to the position, and then the remainder, counted up when long, down when short. */
  function DriftOf(p: PositionState, e: Event): int {
    if e.Filled? && Adds(p.position, Signed(e.side, e.qty)) then
      var signed := Signed(e.side, e.qty);
      Sign(p.position) * TruncRem(CombinedCost(p.position, p.avgOpenPrice, signed, e.price), Abs(p.position + signed))
    else 0
  }

  function Drift(ticker: TickerId, es: seq<Event>): int {
    if es == [] then 0
    else Drift(ticker, es[..|es| - 1]) + DriftOf(Run(ticker, es[..|es| - 1]), es[|es| - 1])
  }

  /** Realized profit less the cost of the open position. */
  function Basis(p: PositionState): int {
    p.realized - p.position * p.avgOpenPrice
  }

  lemma CloseBasis(position: int, avg: int, signed: int, price: int)
    requires Opposed(position, signed)
    ensures RealizedBy(position, avg, signed, price) - (position + signed) * AvgAfter(position, avg, signed, price)
      == -(position * avg) - signed * price
  {
    var a := AvgAfter(position, avg, signed, price);
    if Abs(signed) > Abs(position) {
      assert RealizedBy(position, avg, signed, price) == (price - avg) * position;
      assert (position + signed) * price == position * price + signed * price;
      assert (price - avg) * position == position * price - position * avg;
    } else {
      assert RealizedBy(position, avg, signed, price) == (price - avg) * (-signed);
      assert (price - avg) * (-signed) == -(signed * price) + signed * avg;
      assert (position + signed) * avg == position * avg + signed * avg;
    }
  }

  lemma AddBasis(position: int, avg: int, signed: int, price: int)
    requires Adds(position, signed)
    ensures (position + signed) * AvgAfter(position, avg, signed, price)
      == position * avg + signed * price
         - Sign(position) * TruncRem(CombinedCost(position, avg, signed, price), Abs(position + signed))
  {
    hide TruncDiv, TruncRem;
    var size := Abs(position + signed);
    var total := CombinedCost(position, avg, signed, price);
    CombinedCostIs(position, avg, signed, price);
    SignedQuotient(Sign(position), TruncDiv(total, size), size, TruncRem(total, size), total);
  }

  lemma CombinedCostIs(position: int, avg: int, signed: int, price: int)
    requires Adds(position, signed)
    ensures Sign(position) * CombinedCost(position, avg, signed, price) == position * avg + signed * price
  {
  }

  lemma SignedQuotient(sign: int, q: int, size: int, r: int, total: int)
    requires (sign == 1 || sign == -1) && total == q * size + r
    ensures (sign * size) * q == sign * total - sign * r
  {
  }

  lemma StepBasis(p: PositionState, e: Event)
    ensures Basis(Apply(p, e)) == Basis(p)
      - (if e.Filled? then Signed(e.side, e.qty) * e.price else 0) + DriftOf(p, e)
  {
    if e.Filled? {
      var signed := Signed(e.side, e.qty);
      if Opposed(p.position, signed) {
        CloseBasis(p.position, p.avgOpenPrice, signed, e.price);
      } else if p.position != 0 {
        AddBasis(p.position, p.avgOpenPrice, signed, e.price);
      }
    }
  }

  /** The largest drift the run's adding fills could cause: each less than the size of
      the position it leaves. */
  function DriftBudget(ticker: TickerId, es: seq<Event>): nat {
    if es == [] then 0
    else
      var p, e := Run(ticker, es[..|es| - 1]), es[|es| - 1];
      DriftBudget(ticker, es[..|es| - 1]) +
      if e.Filled? && Adds(p.position, Signed(e.side, e.qty)) then Abs(Apply(p, e).position) - 1 else 0
  }

  lemma {:induction false} DriftWithinBudget(ticker: TickerId, es: seq<Event>)
    ensures Abs(Drift(ticker, es)) <= DriftBudget(ticker, es)
  {
    if es == [] {
    } else {
      DriftWithinBudget(ticker, es[..|es| - 1]);
    }
  }

  /** Conservation over every run of fills and marks: profit is the cash flow, plus the
      position at the price of the last fill or mark, plus exactly the accumulated truncation remainders. */
  lemma {:induction false} PnlConservation(ticker: TickerId, es: seq<Event>)
    ensures var p := Run(ticker, es);
      && p.position == NetQty(es) && p.volume == Traded(es)
      && p.lastPrice == LastPrice(es)
      && p.unrealized == NetQty(es) * (LastPrice(es) - p.avgOpenPrice)
      && Pnl(p) == Cash(es) + NetQty(es) * LastPrice(es) + Drift(ticker, es)
  {
    RunBasis(ticker, es);
    hide Run, Cash, Drift, NetQty, Traded, LastPrice;
    var p := Run(ticker, es);
    assert p.position * (p.lastPrice - p.avgOpenPrice) == p.position * p.lastPrice - p.position * p.avgOpenPrice;
  }

  lemma {:induction false} RunBasis(ticker: TickerId, es: seq<Event>)
    ensures var p := Run(ticker, es);
      && p.position == NetQty(es) && p.volume == Traded(es)
      && p.lastPrice == LastPrice(es)
      && p.unrealized == Unrealized(p.position, p.avgOpenPrice, p.lastPrice)
      && Basis(p) == Cash(es) + Drift(ticker, es)
  {
    if es == [] {
    } else {
      var p, e := Run(ticker, es[..|es| - 1]), es[|es| - 1];
      RunBasis(ticker, es[..|es| - 1]);
      StepBasis(p, e);
      hide Basis, DriftOf, AvgAfter, RealizedBy;
    }
  }

  /** Every adding fill of the run divides evenly. */
  predicate AddsDivideEvenly(ticker: TickerId, es: seq<Event>) {
    es == [] || (AddsDivideEvenly(ticker, es[..|es| - 1]) && DriftOf(Run(ticker, es[..|es| - 1]), es[|es| - 1]) == 0)
  }

  lemma {:induction false} EvenAddsDoNotDrift(ticker: TickerId, es: seq<Event>)
    requires AddsDivideEvenly(ticker, es)
    ensures Drift(ticker, es) == 0
  {
    if es == [] {
    } else {
      EvenAddsDoNotDrift(ticker, es[..|es| - 1]);
    }
  }

  /** A flat book has realized its net cash flow exactly when the drift is zero, in
      particular when every add divided evenly. */
  lemma FlatBookRealizesCash(ticker: TickerId, es: seq<Event>)
    requires NetQty(es) == 0
    ensures Run(ticker, es).realized == Cash(es) + Drift(ticker, es)
    ensures AddsDivideEvenly(ticker, es) ==> Run(ticker, es).realized == Cash(es)
  {
    RunBasis(ticker, es);
    if AddsDivideEvenly(ticker, es) {
      EvenAddsDoNotDrift(ticker, es);
    }
  }

  // ---------------------------------------------------------------- the average price

  /** Prices of the fills that opened the current position or added to it. */
  function Entries(ticker: TickerId, es: seq<Event>): seq<int> {
    if es == [] then []
    else
      var earlier := Entries(ticker, es[..|es| - 1]);
      var e := es[|es| - 1];
      if e.Marked? then earlier
      else
        var position, signed := Run(ticker, es[..|es| - 1]).position, Signed(e.side, e.qty);
        if position == 0 || (Opposed(position, signed) && Abs(signed) > Abs(position)) then [e.price]
        else if Adds(position, signed) && signed != 0 then earlier + [e.price]
        else earlier
  }

  ghost predicate Between(x: int, prices: seq<int>) {
    exists i, j | 0 <= i < |prices| && 0 <= j < |prices| :: prices[i] <= x <= prices[j]
  }

  lemma WeightedMeanBetween(a: int, b: int, price: int, avg: int, lo: int, hi: int)
    requires a >= 0 && b >= 0 && a + b > 0
    requires lo <= avg <= hi && lo <= price <= hi
    ensures lo <= TruncDiv(avg * a + price * b, a + b) <= hi
  {
    MulLe(lo, avg, a);
    MulLe(avg, hi, a);
    MulLe(lo, price, b);
    MulLe(price, hi, b);
    assert lo * (a + b) == lo * a + lo * b && hi * (a + b) == hi * a + hi * b;
    TruncDivBetween(avg * a + price * b, a + b, lo, hi);
  }

  lemma AddKeepsBetween(position: int, avg: int, signed: int, price: int, prices: seq<int>)
    requires Adds(position, signed) && Between(avg, prices)
    ensures Between(AvgAfter(position, avg, signed, price), if signed == 0 then prices else prices + [price])
  {
    var i, j :| 0 <= i < |prices| && 0 <= j < |prices| && prices[i] <= avg <= prices[j];
    var a, b := Abs(position), Abs(signed);
    assert Abs(position + signed) == a + b;
    if signed == 0 {
      assert avg * a + price * 0 == avg * a;
      TruncDivBetween(avg * a, a, avg, avg);
    } else {
      var all := prices + [price];
      var lo, hi := Min(prices[i], price), Max(prices[j], price);
      WeightedMeanBetween(a, b, price, avg, lo, hi);
      var i', j' := if price < prices[i] then |prices| else i, if prices[j] < price then |prices| else j;
      assert all[i'] == lo && all[j'] == hi;
    }
  }

  /** While a position is open its average price lies between two of its entry prices,
      whatever their signs and however often the average was truncated. */
  lemma {:induction false} AverageWithinEntries(ticker: TickerId, es: seq<Event>)
    ensures Run(ticker, es).position != 0 ==> Between(Run(ticker, es).avgOpenPrice, Entries(ticker, es))
  {
    if es == [] {
    } else {
      var p, e := Run(ticker, es[..|es| - 1]), es[|es| - 1];
      AverageWithinEntries(ticker, es[..|es| - 1]);
      if e.Filled? {
        var signed := Signed(e.side, e.qty);
        if Adds(p.position, signed) {
          AddKeepsBetween(p.position, p.avgOpenPrice, signed, e.price, Entries(ticker, es[..|es| - 1]));
        } else {
          assert [e.price][0] == e.price;
        }
      }
    }
  }
}
