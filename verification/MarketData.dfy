/** The client's best bid and offer (`trading/src/market_data.rs`). */
module MarketData {
  import opened Types
  import opened Arithmetic
  import opened Protocol

  datatype BBO = BBO(bidPrice: Price, bidQty: Qty, askPrice: Price, askQty: Qty)

  function NewBBO(): BBO {
    BBO(INVALID_PRICE, 0, INVALID_PRICE, 0)
  }

  predicate IsValid(b: BBO) {
    b.bidPrice != INVALID_PRICE && b.bidQty > 0 && b.askPrice != INVALID_PRICE && b.askQty > 0
  }

  function MidPrice(b: BBO): Option<int> {
    if IsValid(b) then Some(TruncDiv(b.bidPrice + b.askPrice, 2)) else None
  }

  // ---------------------------------------------------------------- one update

  function BestOfBid(bid: Price, price: Price): Price {
    if bid == INVALID_PRICE || price > bid then price else bid
  }

  function BestOfAsk(ask: Price, price: Price): Price {
    if ask == INVALID_PRICE || price < ask then price else ask
  }

  /** The quantity left after a cancel; a cancel of quantity zero takes all of it. */
  function AfterCancel(qty: Qty, canceled: Qty): Qty {
    if canceled == 0 then 0 else SatSub(qty, canceled)
  }

  function OnQuote(b: BBO, u: MarketUpdate): BBO {
    if u.side == SideCode(Buy) then
      var bid := BestOfBid(b.bidPrice, u.price);
      b.(bidPrice := bid, bidQty := if bid == u.price then u.qty else b.bidQty)
    else if u.side == SideCode(Sell) then
      var ask := BestOfAsk(b.askPrice, u.price);
      b.(askPrice := ask, askQty := if ask == u.price then u.qty else b.askQty)
    else b
  }

  function OnCancel(b: BBO, u: MarketUpdate): BBO {
    if u.side == SideCode(Buy) && u.price == b.bidPrice then b.(bidQty := AfterCancel(b.bidQty, u.qty))
    else if u.side == SideCode(Sell) && u.price == b.askPrice then b.(askQty := AfterCancel(b.askQty, u.qty))
    else b
  }

  function OnTrade(b: BBO, u: MarketUpdate): BBO {
    if u.side == SideCode(Buy) && u.price == b.askPrice then b.(askQty := SatSub(b.askQty, u.qty))
    else if u.side == SideCode(Sell) && u.price == b.bidPrice then b.(bidQty := SatSub(b.bidQty, u.qty))
    else b
  }

  function BboStep(b: BBO, u: MarketUpdate): BBO {
    match UpdateTypeOf(u.msgType)
    case None => b
    case Some(Cancel) => OnCancel(b, u)
    case Some(Trade) => OnTrade(b, u)
    case Some(Clear) => NewBBO()
    case Some(_) => OnQuote(b, u)
  }

  type BboMap = map<TickerId, BBO>

  function Lookup(m: BboMap, ticker: TickerId): BBO {
    if ticker in m then m[ticker] else NewBBO()
  }

  // ---------------------------------------------------------------- the receiver

  /** The receiver ignores updates of unknown type before it looks at its map. */
  function ReceiverStep(m: BboMap, u: MarketUpdate): BboMap {
    if UpdateTypeOf(u.msgType).None? then m else m[u.tickerId := BboStep(Lookup(m, u.tickerId), u)]
  }

  class MarketDataReceiver {
    var bbo: BboMap

    constructor ()
      ensures bbo == map[]
    {
      bbo := map[];
    }

    method ProcessUpdate(u: MarketUpdate)
      modifies this
      ensures bbo == ReceiverStep(old(bbo), u)
    {
      var kind := UpdateTypeOf(u.msgType);
      if kind.None? {
        return;
      }
      var b := Lookup(bbo, u.tickerId);
      match kind.value {
        case Add => b := Quoted(b, u);
        case Modify => b := Quoted(b, u);
        case Snapshot => b := Quoted(b, u);
        case Cancel =>
          if u.side == 1 && u.price == b.bidPrice {
            b := b.(bidQty := if u.qty == 0 || u.qty >= b.bidQty then 0 else b.bidQty - u.qty);
          } else if u.side == -1 && u.price == b.askPrice {
            b := b.(askQty := if u.qty == 0 || u.qty >= b.askQty then 0 else b.askQty - u.qty);
          }
        case Trade =>
          if u.side == 1 && u.price == b.askPrice {
            b := b.(askQty := SatSub(b.askQty, u.qty));
          } else if u.side == -1 && u.price == b.bidPrice {
            b := b.(bidQty := SatSub(b.bidQty, u.qty));
          }
        case Clear => b := NewBBO();
      }
      bbo := bbo[u.tickerId := b];
    }

    method Quoted(b: BBO, u: MarketUpdate) returns (r: BBO)
      ensures r == OnQuote(b, u)
    {
      r := b;
      if u.side == 1 {
        if u.price > b.bidPrice || b.bidPrice == INVALID_PRICE {
          r := b.(bidPrice := u.price, bidQty := u.qty);
        } else if u.price == b.bidPrice {
          r := b.(bidQty := u.qty);
        }
      } else if u.side == -1 {
        if u.price < b.askPrice || b.askPrice == INVALID_PRICE {
          r := b.(askPrice := u.price, askQty := u.qty);
        } else if u.price == b.askPrice {
          r := b.(askQty := u.qty);
        }
      }
    }
  }

  function Received(us: seq<MarketUpdate>): BboMap {
    if us == [] then map[] else ReceiverStep(Received(us[..|us| - 1]), us[|us| - 1])
  }
}
