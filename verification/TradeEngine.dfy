/** The client's trade engine (`trading/src/trade_engine.rs`): order submission behind the
    risk checks, the life of each order until it is filled or cancelled, and marks from
    market data. */
module TradeEngine {
  import opened Types
  import opened Arithmetic
  import opened Protocol
  import opened Position
  import opened Risk
  import MarketData

  datatype Tracked = Tracked(ticker: TickerId, side: Side, price: Price, originalQty: Qty, leaves: Qty)

  datatype Config = Config(enableRiskChecks: bool, defaults: RiskLimits)

  datatype EngineState = EngineState(
    positions: Positions,
    totalPnl: int,
    pending: map<nat, Tracked>,
    openCount: map<TickerId, u32>,
    submitted: nat,
    bbo: MarketData.BboMap,
    risk: LimitTable)

  datatype SubmitResult = Submitted(id: nat) | Rejected(reason: RiskCheckResult)

  // ---------------------------------------------------------------- specification

  function NewEngine(cfg: Config): EngineState {
    EngineState(map[], 0, map[], map[], 0, map[], LimitTable(map[], cfg.defaults))
  }

  function CountFor(s: EngineState, t: TickerId): u32 {
    if t in s.openCount then s.openCount[t] else 0
  }

  function PositionOf(s: EngineState, t: TickerId): PositionState {
    Lookup(s.positions, t)
  }

  function CheckRisk(cfg: Config, s: EngineState, t: TickerId, side: Side, qty: Qty): RiskCheckResult {
    if !cfg.enableRiskChecks then Allowed
    else CheckOrderWithOpenOrders(s.risk, PositionOf(s, t), side, qty, CountFor(s, t))
  }

  /** The id of the next order: the callback's, or a running number if there is none. */
  function IdFor(s: EngineState, callback: Option<nat>): nat {
    if callback.Some? then callback.value else s.submitted + 1
  }

  /** A new order is tracked: its ticker's count and open quantity grow, as 32-bit words. */
  function Track(s: EngineState, id: nat, o: Tracked): EngineState {
    s.(positions := s.positions[o.ticker := AddOpen(PositionOf(s, o.ticker), o.side, o.leaves)],
       pending := s.pending[id := o],
       openCount := s.openCount[o.ticker := (CountFor(s, o.ticker) + 1) % WORD32],
       submitted := s.submitted + 1)
  }

  function Submit(cfg: Config, s: EngineState, t: TickerId, side: Side, price: Price, qty: Qty, callback: Option<nat>):
    EngineState
  {
    if CheckRisk(cfg, s, t, side, qty) != Allowed then s
    else Track(s, IdFor(s, callback), Tracked(t, side, price, qty, qty))
  }

  /** A fill of a tracked order: the position trades, and the open quantity shrinks. */
  ghost function TradeTracked(s: EngineState, t: TickerId, side: Side, qty: nat, price: Price): EngineState {
    var filled := Fill(PositionOf(s, t), side, qty, price);
    s.(positions := s.positions[t := RemoveOpen(filled, side, qty)],
       totalPnl := TotalPnl(s.positions[t := filled]))
  }

  function DropCount(s: EngineState, t: TickerId): EngineState {
    s.(openCount := s.openCount[t := SatSub(CountFor(s, t), 1)])
  }

  /** An order that ends without a fill. */
  function Untrack(s: EngineState, id: nat, t: TickerId): EngineState
    requires id in s.pending
  {
    var o := s.pending[id];
    var positions := s.positions[t := RemoveOpen(PositionOf(s, t), o.side, o.leaves)];
    DropCount(s.(positions := positions, pending := s.pending - {id}), t)
  }

  ghost function OnFilled(s: EngineState, r: ClientResponse): EngineState {
    var id := r.clientOrderId;
    var traded := if id in s.pending then TradeTracked(s, r.tickerId, s.pending[id].side, r.execQty, r.price) else s;
    if r.leavesQty == 0 then DropCount(traded.(pending := traded.pending - {id}), r.tickerId)
    else if id in s.pending then traded.(pending := traded.pending[id := s.pending[id].(leaves := r.leavesQty)])
    else traded
  }

  ghost function Respond(s: EngineState, r: ClientResponse): EngineState {
    match ResponseTypeOf(r.msgType)
    case None => s
    case Some(Accepted) => s
    case Some(Filled) => OnFilled(s, r)
    case Some(_) => if r.clientOrderId in s.pending then Untrack(s, r.clientOrderId, r.tickerId) else s
  }

  /** A new market price for a ticker that has a position. */
  ghost function MarkTo(s: EngineState, t: TickerId, price: int): EngineState {
    if t !in s.positions then s
    else
      var positions := s.positions[t := Mark(s.positions[t], price)];
      s.(positions := positions, totalPnl := TotalPnl(positions))
  }

  ghost function OnMarket(s: EngineState, u: MarketUpdate): EngineState {
    var b := MarketData.BboStep(MarketData.Lookup(s.bbo, u.tickerId), u);
    var s1 := s.(bbo := s.bbo[u.tickerId := b]);
    if UpdateTypeOf(u.msgType) == Some(UpdateType.Trade) then MarkTo(s1, u.tickerId, u.price) else s1
  }

  ghost function OnQuote(s: EngineState, t: TickerId, b: MarketData.BBO): EngineState {
    var s1 := s.(bbo := s.bbo[t := b]);
    var mid := MarketData.MidPrice(b);
    if mid.Some? then MarkTo(s1, t, mid.value) else s1
  }

  /** `reset` forgets orders, counts and quotes, but not the limits or the positions' open
      quantities. */
  function Reset(s: EngineState): EngineState {
    s.(pending := map[], openCount := map[], submitted := 0, bbo := map[])
  }

  // ---------------------------------------------------------------- the object

  class TradeEngine {
    const cfg: Config
    const keeper: PositionKeeper
    const risk: RiskManager
    var pending: map<nat, Tracked>
    var openCount: map<TickerId, u32>
    var submitted: nat
    var bbo: MarketData.BboMap

    function State(): EngineState
      reads this, keeper, risk
    {
      EngineState(keeper.positions, keeper.totalPnl, pending, openCount, submitted, bbo, risk.Table())
    }

    constructor (cfg: Config)
      ensures this.cfg == cfg && fresh(keeper) && fresh(risk) && State() == NewEngine(cfg)
    {
      this.cfg := cfg;
      keeper := new PositionKeeper();
      risk := new RiskManager(cfg.defaults);
      pending, openCount, submitted, bbo := map[], map[], 0, map[];
    }

    /** Through `risk_manager_mut`. */
    method ChangeLimits(c: LimitChange)
      modifies risk
      ensures State() == old(State()).(risk := Change(old(State()).risk, c))
    {
      match c {
        case SetFor(t, l) => risk.SetLimits(t, l);
        case RemoveFor(t) => risk.RemoveLimits(t);
      }
    }

    method SubmitOrder(t: TickerId, side: Side, price: Price, qty: Qty, callback: Option<nat>)
      returns (result: SubmitResult)
      modifies this, keeper
      ensures State() == Submit(cfg, old(State()), t, side, price, qty, callback)
      ensures var check := CheckRisk(cfg, old(State()), t, side, qty);
        result == if check == Allowed then Submitted(IdFor(old(State()), callback)) else Rejected(check)
    {
      var check := CheckRisk(cfg, State(), t, side, qty);
      if check != Allowed {
        return Rejected(check);
      }
      var id := if callback.Some? then callback.value else submitted + 1;
      pending := pending[id := Tracked(t, side, price, qty, qty)];
      var count := if t in openCount then openCount[t] else 0;
      openCount := openCount[t := (count + 1) % WORD32];
      keeper.AddOpenOrder(t, side, qty);
      submitted := submitted + 1;
      return Submitted(id);
    }

    method OnResponse(r: ClientResponse)
      modifies this, keeper
      ensures State() == Respond(old(State()), r)
    {
      hide ResponseTypeOf, OnFilled;
      var id, t := r.clientOrderId, r.tickerId;
      match ResponseTypeOf(r.msgType) {
        case None =>
        case Some(Accepted) =>
        case Some(Filled) => OnFillResponse(r);
        case Some(_) =>
          if id in pending {
            var order := pending[id];
            pending := pending - {id};
            keeper.RemoveOpenOrder(t, order.side, order.leaves);
            CountDown(t);
          }
      }
    }

    method OnFillResponse(r: ClientResponse)
      modifies this, keeper
      ensures State() == OnFilled(old(State()), r)
    {
      hide Fill, TotalPnl, RemoveOpen;
      var id, t := r.clientOrderId, r.tickerId;
      if id in pending {
        var side := pending[id].side;
        keeper.OnFill(t, side, r.execQty, r.price);
        keeper.RemoveOpenOrder(t, side, r.execQty);
      }
      if r.leavesQty == 0 {
        pending := pending - {id};
        CountDown(t);
      } else if id in pending {
        pending := pending[id := pending[id].(leaves := r.leavesQty)];
      }
    }

    method CountDown(t: TickerId)
      modifies `openCount
      ensures State() == DropCount(old(State()), t)
    {
      openCount := openCount[t := SatSub(if t in openCount then openCount[t] else 0, 1)];
    }

    method OnMarketUpdate(u: MarketUpdate)
      modifies this, keeper
      ensures State() == OnMarket(old(State()), u)
    {
      var b := MarketData.Lookup(bbo, u.tickerId);
      var kind := UpdateTypeOf(u.msgType);
      match kind {
        case Some(Add) => b := Quoted(b, u);
        case Some(Modify) => b := Quoted(b, u);
        case Some(Snapshot) => b := Quoted(b, u);
        case Some(Cancel) =>
          if u.side == 1 && u.price == b.bidPrice {
            b := b.(bidQty := if u.qty == 0 || u.qty >= b.bidQty then 0 else b.bidQty - u.qty);
          } else if u.side == -1 && u.price == b.askPrice {
            b := b.(askQty := if u.qty == 0 || u.qty >= b.askQty then 0 else b.askQty - u.qty);
          }
        case Some(Trade) =>
          if u.side == 1 && u.price == b.askPrice {
            b := b.(askQty := SatSub(b.askQty, u.qty));
          } else if u.side == -1 && u.price == b.bidPrice {
            b := b.(bidQty := SatSub(b.bidQty, u.qty));
          }
          keeper.UpdateMarketPrice(u.tickerId, u.price);
        case Some(Clear) => b := MarketData.NewBBO();
        case None =>
      }
      bbo := bbo[u.tickerId := b];
    }

    method Quoted(b: MarketData.BBO, u: MarketUpdate) returns (r: MarketData.BBO)
      ensures r == MarketData.OnQuote(b, u)
    {
      r := b;
      if u.side == 1 {
        if u.price > b.bidPrice || b.bidPrice == INVALID_PRICE {
          r := b.(bidPrice := u.price, bidQty := u.qty);
        } else if u.price == b.bidPrice {
          r := b.(bidQty := u.qty);
        }
      } else if u.side == -1 {
        if u.price < b.askPrice || b.askPrice == INVALID_PRICE {
          r := b.(askPrice := u.price, askQty := u.qty);
        } else if u.price == b.askPrice {
          r := b.(askQty := u.qty);
        }
      }
    }

    method UpdateBbo(t: TickerId, b: MarketData.BBO)
      modifies this, keeper
      ensures State() == OnQuote(old(State()), t, b)
    {
      bbo := bbo[t := b];
      var mid := MarketData.MidPrice(b);
      if mid.Some? {
        keeper.UpdateMarketPrice(t, mid.value);
      }
    }
  
    method ResetState()
      modifies this
      ensures State() == Reset(old(State()))
    {
      bbo, pending, openCount, submitted := map[], map[], map[], 0;
    }
  }
}
