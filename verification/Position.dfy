/** Position and profit-and-loss accounting (`trading/src/position.rs`). */
module Position {
  import opened Types
  import opened Arithmetic
  import opened MapSum

  datatype PositionState = PositionState(
    ticker: TickerId,
    position: int,
    openBuyQty: Qty,
    openSellQty: Qty,
    volume: nat,
    realized: int,
    unrealized: int,
    avgOpenPrice: int,
    lastPrice: int)

  function NewPosition(ticker: TickerId): PositionState {
    PositionState(ticker, 0, 0, 0, 0, 0, 0, 0, 0)
  }

  function Signed(side: Side, qty: nat): int {
    var q: int := qty;
    if side.Buy? then q else -q
  }

  function Sign(x: int): int {
    if x > 0 then 1 else if x < 0 then -1 else 0
  }

  // ---------------------------------------------------------------- specification

  /** The fill runs against the position: it reduces, closes or flips it. */
  predicate Opposed(position: int, signed: int) {
    (position > 0 && signed < 0) || (position < 0 && signed > 0)
  }

  /** The fill extends an open position. */
  predicate Adds(position: int, signed: int) {
    position != 0 && !Opposed(position, signed)
  }

  /** What the open position and the fill cost together. */
  function CombinedCost(position: int, avg: int, signed: int, price: int): int {
    avg * Abs(position) + price * Abs(signed)
  }

  /** Profit taken on the part of the position that the fill closes. */
  function RealizedBy(position: int, avg: int, signed: int, price: int): int {
    if Opposed(position, signed) then
      Sign(position) * (price - avg) * Min(Abs(position), Abs(signed))
    else 0
  }

  function AvgAfter(position: int, avg: int, signed: int, price: int): int {
    if position == 0 then price
    else if Opposed(position, signed) then (if Abs(signed) > Abs(position) then price else avg)
    else TruncDiv(CombinedCost(position, avg, signed, price), Abs(position + signed))
  }

  /** Unrealized profit of any position, long or short. */
  function Unrealized(position: int, avg: int, last: int): int {
    position * (last - avg)
  }

  function Fill(p: PositionState, side: Side, qty: nat, price: int): PositionState {
    var signed := Signed(side, qty);
    var avg := AvgAfter(p.position, p.avgOpenPrice, signed, price);
    p.(position := p.position + signed,
       volume := p.volume + qty,
       lastPrice := price,
       realized := p.realized + RealizedBy(p.position, p.avgOpenPrice, signed, price),
       avgOpenPrice := avg,
       unrealized := Unrealized(p.position + signed, avg, price))
  }

  function Mark(p: PositionState, price: int): PositionState {
    p.(lastPrice := price, unrealized := Unrealized(p.position, p.avgOpenPrice, price))
  }

  /** Open quantities are 32-bit words that wrap. */
  function AddQty(open: Qty, qty: nat): Qty {
    (open + qty) % WORD32
  }

  function AddOpen(p: PositionState, side: Side, qty: nat): PositionState {
    if side.Buy? then p.(openBuyQty := AddQty(p.openBuyQty, qty)) else p.(openSellQty := AddQty(p.openSellQty, qty))
  }

  function RemoveOpen(p: PositionState, side: Side, qty: nat): PositionState {
    if side.Buy? then p.(openBuyQty := SatSub(p.openBuyQty, qty))
    else p.(openSellQty := SatSub(p.openSellQty, qty))
  }

  function Pnl(p: PositionState): int {
    p.realized + p.unrealized
  }

  // ---------------------------------------------------------------- the object

  class Position {
    var ticker: TickerId
    var position: int
    var openBuyQty: Qty
    var openSellQty: Qty
    var volume: nat
    var realized: int
    var unrealized: int
    var avgOpenPrice: int
    var lastPrice: int

    function State(): PositionState
      reads this
    {
      PositionState(ticker, position, openBuyQty, openSellQty, volume, realized, unrealized, avgOpenPrice, lastPrice)
    }

    constructor (s: PositionState)
      ensures State() == s
    {
      ticker, position, openBuyQty, openSellQty := s.ticker, s.position, s.openBuyQty, s.openSellQty;
      volume, realized, unrealized := s.volume, s.realized, s.unrealized;
      avgOpenPrice, lastPrice := s.avgOpenPrice, s.lastPrice;
    }

    method OnFill(side: Side, qty: nat, price: int)
      modifies this
      ensures State() == Fill(old(State()), side, qty, price)
    {
      var signed: int := qty;
      if side == Sell { signed := -signed; }
      volume := volume + qty;
      lastPrice := price;
      var oldPosition := position;
      var newPosition := oldPosition + signed;
      if oldPosition == 0 {
        avgOpenPrice := price;
      } else if (oldPosition > 0 && signed < 0) || (oldPosition < 0 && signed > 0) {
        var closing := Min(Abs(oldPosition), Abs(signed));
        var perUnit := if oldPosition > 0 then price - avgOpenPrice else avgOpenPrice - price;
        realized := realized + perUnit * closing;
        if newPosition != 0 && (newPosition > 0) != (oldPosition > 0) {
          avgOpenPrice := price;
        }
      } else {
        var totalCost := avgOpenPrice * Abs(oldPosition) + price * Abs(signed);
        avgOpenPrice := TruncDiv(totalCost, Abs(newPosition));
      }
      position := newPosition;
      UpdateUnrealized();
    }

    method UpdateUnrealized()
      modifies `unrealized
      ensures unrealized == Unrealized(position, avgOpenPrice, lastPrice)
    {
      if position == 0 {
        unrealized := 0;
      } else if position > 0 {
        unrealized := (lastPrice - avgOpenPrice) * position;
      } else {
        unrealized := (avgOpenPrice - lastPrice) * (-position);
      }
    }

    method UpdateMarketPrice(price: int)
      modifies this
      ensures State() == Mark(old(State()), price)
    {
      lastPrice := price;
      UpdateUnrealized();
    }

    method AddOpenOrder(side: Side, qty: nat)
      modifies this
      ensures State() == AddOpen(old(State()), side, qty)
    {
      match side {
        case Buy => openBuyQty := (openBuyQty + qty) % WORD32;
        case Sell => openSellQty := (openSellQty + qty) % WORD32;
      }
    }

    method RemoveOpenOrder(side: Side, qty: nat)
      modifies this
      ensures State() == RemoveOpen(old(State()), side, qty)
    {
      match side {
        case Buy => openBuyQty := SatSub(openBuyQty, qty);
        case Sell => openSellQty := SatSub(openSellQty, qty);
      }
    }
  }

  // ---------------------------------------------------------------- all tickers

  type Positions = map<TickerId, PositionState>

  function Lookup(m: Positions, ticker: TickerId): PositionState {
    if ticker in m then m[ticker] else NewPosition(ticker)
  }

  ghost function TotalPnl(m: Positions): int {
    Sum(m, Pnl)
  }

  /** Replacing a position, or creating one from nothing, moves the total by the difference. */
  lemma TotalPnlUpdate(m: Positions, ticker: TickerId, p: PositionState)
    ensures TotalPnl(m[ticker := p]) == TotalPnl(m) - Pnl(Lookup(m, ticker)) + Pnl(p)
  {
    if ticker in m {
      SumUpdate(m, ticker, p, Pnl);
    } else {
      SumInsert(m, ticker, p, Pnl);
    }
  }

  class PositionKeeper {
    var positions: Positions
    var totalPnl: int

    constructor ()
      ensures positions == map[] && totalPnl == 0
    {
      positions, totalPnl := map[], 0;
    }

    method OnFill(ticker: TickerId, side: Side, qty: nat, price: int)
      modifies this
      ensures positions == old(positions)[ticker := Fill(Lookup(old(positions), ticker), side, qty, price)]
      ensures totalPnl == TotalPnl(positions)
    {
      var p := new Position(Lookup(positions, ticker));
      p.OnFill(side, qty, price);
      positions := positions[ticker := p.State()];
      RecalculateTotalPnl();
    }

    method UpdateMarketPrice(ticker: TickerId, price: int)
      modifies this
      ensures ticker in old(positions) ==>
        && positions == old(positions)[ticker := Mark(old(positions)[ticker], price)]
        && totalPnl == TotalPnl(positions)
      ensures ticker !in old(positions) ==> positions == old(positions) && totalPnl == old(totalPnl)
    {
      if ticker in positions {
        var p := new Position(positions[ticker]);
        p.UpdateMarketPrice(price);
        positions := positions[ticker := p.State()];
        RecalculateTotalPnl();
      }
    }

    /** `get_position_mut` followed by `add_open_order`: the cached total is not refreshed. */
    method AddOpenOrder(ticker: TickerId, side: Side, qty: nat)
      modifies `positions
      ensures positions == old(positions)[ticker := AddOpen(Lookup(old(positions), ticker), side, qty)]
    {
      var p := new Position(Lookup(positions, ticker));
      p.AddOpenOrder(side, qty);
      positions := positions[ticker := p.State()];
    }

    /** `get_position_mut` followed by `remove_open_order`. */
    method RemoveOpenOrder(ticker: TickerId, side: Side, qty: nat)
      modifies `positions
      ensures positions == old(positions)[ticker := RemoveOpen(Lookup(old(positions), ticker), side, qty)]
    {
      var p := new Position(Lookup(positions, ticker));
      p.RemoveOpenOrder(side, qty);
      positions := positions[ticker := p.State()];
    }

    method RecalculateTotalPnl()
      modifies `totalPnl
      ensures totalPnl == TotalPnl(positions)
    {
      var rest := positions;
      var total := 0;
      while rest != map[]
        invariant total + TotalPnl(rest) == TotalPnl(positions)
        decreases |rest|
      {
        assert rest.Keys != {};
        var t :| t in rest.Keys;
        SumRemove(rest, t, Pnl);
        assert (rest - {t}).Keys == rest.Keys - {t};
        total := total + rest[t].realized + rest[t].unrealized;
        rest := rest - {t};
      }
      totalPnl := total;
    }
  }
}
