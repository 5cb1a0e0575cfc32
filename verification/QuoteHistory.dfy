/** The client's best bid and offer read off the updates it has seen, of whatever kinds and
    in whatever order: its prices, and how much it shows at them. */
module QuoteHistory {
  import opened Types
  import opened Arithmetic
  import opened Protocol
  import opened MarketData
  import ClientView

  function PriceOf(b: BBO, side: Side): Price {
    if side.Buy? then b.bidPrice else b.askPrice
  }

  function QtyOf(b: BBO, side: Side): Qty {
    if side.Buy? then b.bidQty else b.askQty
  }

  function Opposite(side: Side): Side {
    if side.Buy? then Sell else Buy
  }

  // ---------------------------------------------------------------- kinds of updates

  predicate IsClear(u: MarketUpdate, t: TickerId) {
    u.tickerId == t && u.msgType == UpdateCode(Clear)
  }

  predicate IsQuote(u: MarketUpdate, t: TickerId, side: Side) {
    && u.tickerId == t && u.side == SideCode(side)
    && (u.msgType == UpdateCode(Add) || u.msgType == UpdateCode(Modify) || u.msgType == UpdateCode(Snapshot))
  }

  predicate IsCancel(u: MarketUpdate, t: TickerId, side: Side, price: Price) {
    u.tickerId == t && u.side == SideCode(side) && u.msgType == UpdateCode(UpdateType.Cancel) && u.price == price
  }

  /** A trade takes from the side it was not on. */
  predicate IsTrade(u: MarketUpdate, t: TickerId, side: Side, price: Price) {
    && u.tickerId == t && u.side == SideCode(Opposite(side))
    && u.msgType == UpdateCode(UpdateType.Trade) && u.price == price
  }

  predicate Takes(u: MarketUpdate, t: TickerId, side: Side, price: Price) {
    IsCancel(u, t, side, price) || IsTrade(u, t, side, price)
  }

  /** A cancel of quantity zero takes everything. */
  predicate Wipes(u: MarketUpdate, t: TickerId, side: Side, price: Price) {
    IsCancel(u, t, side, price) && u.qty == 0
  }

  // ---------------------------------------------------------------- from the updates

  /** The prices quoted on a side since the ticker was last cleared. */
  function Quoted(us: seq<MarketUpdate>, t: TickerId, side: Side): seq<Price> {
    if us == [] || IsClear(us[|us| - 1], t) then []
    else Quoted(us[..|us| - 1], t, side) + if IsQuote(us[|us| - 1], t, side) then [us[|us| - 1].price] else []
  }

  function BestOf(side: Side, ps: seq<Price>): Price {
    if side.Buy? then ClientView.BidAfter(ps) else ClientView.AskAfter(ps)
  }

  /** Update i quotes the best price as it then is. */
  predicate Sets(us: seq<MarketUpdate>, i: nat, t: TickerId, side: Side) {
    i < |us| && IsQuote(us[i], t, side) && us[i].price == BestOf(side, Quoted(us[..i + 1], t, side))
  }

  /** No update after i does, and none clears the ticker. */
  predicate SetsLast(us: seq<MarketUpdate>, i: nat, t: TickerId, side: Side) {
    Sets(us, i, t, side) && forall j | i < j < |us| :: !Sets(us, j, t, side) && !IsClear(us[j], t)
  }

  /** What the updates take from a price. */
  function Taken(us: seq<MarketUpdate>, t: TickerId, side: Side, price: Price): nat {
    if us == [] then 0
    else Taken(us[..|us| - 1], t, side, price) + if Takes(us[|us| - 1], t, side, price) then us[|us| - 1].qty else 0
  }

  predicate Wiped(us: seq<MarketUpdate>, t: TickerId, side: Side, price: Price) {
    exists i :: 0 <= i < |us| && Wipes(us[i], t, side, price)
  }

  /** What is left of the quote that update i has set. */
  function LeftOf(us: seq<MarketUpdate>, i: nat, t: TickerId, side: Side): nat
    requires i < |us|
  {
    var price, later := us[i].price, us[i + 1..];
    if Wiped(later, t, side, price) then 0 else SatSub(us[i].qty, Taken(later, t, side, price))
  }

  // ---------------------------------------------------------------- one update

  function Better(side: Side, best: Price, price: Price): Price {
    if side.Buy? then BestOfBid(best, price) else BestOfAsk(best, price)
  }

  lemma StepQuote(m: BboMap, u: MarketUpdate, t: TickerId, side: Side)
    ensures var b, b' := Lookup(m, t), Lookup(ReceiverStep(m, u), t);
      var price, qty := PriceOf(b, side), QtyOf(b, side);
      if IsClear(u, t) then PriceOf(b', side) == INVALID_PRICE && QtyOf(b', side) == 0
      else if IsQuote(u, t, side) then
        && PriceOf(b', side) == Better(side, price, u.price)
        && QtyOf(b', side) == if PriceOf(b', side) == u.price then u.qty else qty
      else
        && PriceOf(b', side) == price
        && QtyOf(b', side) ==
           if Wipes(u, t, side, price) then 0 else if Takes(u, t, side, price) then SatSub(qty, u.qty) else qty
  {
    hide BestOfBid, BestOfAsk;
  }

  lemma QuotedStep(us: seq<MarketUpdate>, t: TickerId, side: Side)
    requires us != []
    ensures var before, u := us[..|us| - 1], us[|us| - 1];
      BestOf(side, Quoted(us, t, side)) ==
        if IsClear(u, t) then INVALID_PRICE
        else if IsQuote(u, t, side) then Better(side, BestOf(side, Quoted(before, t, side)), u.price)
        else BestOf(side, Quoted(before, t, side))
  {
    hide IsClear, IsQuote, BestOfBid, BestOfAsk;
    var before, u := us[..|us| - 1], us[|us| - 1];
    ClientView.FoldStep(Quoted(before, t, side), u.price);
  }

  lemma SetsLastStep(us: seq<MarketUpdate>, i: nat, t: TickerId, side: Side)
    requires us != []
    ensures var before, last := us[..|us| - 1], |us| - 1;
      SetsLast(us, i, t, side) <==>
        if i == last then Sets(us, last, t, side)
        else SetsLast(before, i, t, side) && !Sets(us, last, t, side) && !IsClear(us[last], t)
  {
    hide IsClear, IsQuote, Quoted, BestOf;
    var before := us[..|us| - 1];
    assert forall j: nat | j < |us| - 1 :: us[j] == before[j] && us[..j + 1] == before[..j + 1];
    assert forall j: nat | j < |us| - 1 :: Sets(us, j, t, side) <==> Sets(before, j, t, side);
  }

  lemma LeftStep(us: seq<MarketUpdate>, i: nat, t: TickerId, side: Side)
    requires i < |us| - 1
    ensures var before, u, price := us[..|us| - 1], us[|us| - 1], us[i].price;
      var left := LeftOf(before, i, t, side);
      LeftOf(us, i, t, side) ==
        if Wipes(u, t, side, price) then 0 else if Takes(u, t, side, price) then SatSub(left, u.qty) else left
  {
    hide Wipes, Takes;
    var before, u, later := us[..|us| - 1], us[|us| - 1], us[i + 1..];
    var earlier := before[i + 1..];
    assert later == earlier + [u] && later[..|later| - 1] == earlier;
    assert Wiped(later, t, side, us[i].price) <==>
      Wiped(earlier, t, side, us[i].price) || Wipes(u, t, side, us[i].price) by
    {
      if Wipes(u, t, side, us[i].price) { assert later[|later| - 1] == u; }
      if j :| 0 <= j < |earlier| && Wipes(earlier[j], t, side, us[i].price) { assert later[j] == earlier[j]; }
    }
  }

  // ---------------------------------------------------------------- all updates

  /** The quote shows the price of update i and what is left of its quantity. */
  predicate Shows(b: BBO, us: seq<MarketUpdate>, i: nat, t: TickerId, side: Side) {
    i < |us| && PriceOf(b, side) == us[i].price && QtyOf(b, side) == LeftOf(us, i, t, side)
  }

  /** After any updates: the price on a side is the best quoted since the ticker was last
      cleared, and the quantity is what cancels and trades at that price have left of the
      last quote at it; with no quote since then there is neither. */
  lemma {:induction false} QuoteIs(us: seq<MarketUpdate>, t: TickerId, side: Side)
    ensures var b := Lookup(Received(us), t);
      && PriceOf(b, side) == BestOf(side, Quoted(us, t, side))
      && (Quoted(us, t, side) == [] ==> QtyOf(b, side) == 0)
      && (Quoted(us, t, side) != [] <==> exists i: nat :: SetsLast(us, i, t, side))
      && (forall i: nat | SetsLast(us, i, t, side) :: Shows(b, us, i, t, side))
  {
    hide ReceiverStep, Lookup, BestOf, IsClear, IsQuote, SetsLast, LeftOf, Wipes, Takes;
    if us == [] {
      NoQuotes(t, side);
    } else {
      QuoteIs(us[..|us| - 1], t, side);
      QuoteStep(us, t, side);
    }
  }

  lemma NoQuotes(t: TickerId, side: Side)
    ensures PriceOf(Lookup(map[], t), side) == BestOf(side, []) && QtyOf(Lookup(map[], t), side) == 0
    ensures forall i: nat :: !SetsLast([], i, t, side)
  {
  }

  lemma QuoteStep(us: seq<MarketUpdate>, t: TickerId, side: Side)
    requires us != []
    requires var before := us[..|us| - 1];
      var b := Lookup(Received(before), t);
      && PriceOf(b, side) == BestOf(side, Quoted(before, t, side))
      && (Quoted(before, t, side) == [] ==> QtyOf(b, side) == 0)
      && (Quoted(before, t, side) != [] <==> exists i: nat :: SetsLast(before, i, t, side))
      && (forall i: nat | SetsLast(before, i, t, side) :: Shows(b, before, i, t, side))
    ensures var b := Lookup(Received(us), t);
      && PriceOf(b, side) == BestOf(side, Quoted(us, t, side))
      && (Quoted(us, t, side) == [] ==> QtyOf(b, side) == 0)
      && (Quoted(us, t, side) != [] <==> exists i: nat :: SetsLast(us, i, t, side))
      && (forall i: nat | SetsLast(us, i, t, side) :: Shows(b, us, i, t, side))
  {
    hide ReceiverStep, Lookup, BestOf, IsClear, IsQuote, SetsLast, LeftOf, Wipes, Takes, Better, Sets;
    var before, u, last := us[..|us| - 1], us[|us| - 1], |us| - 1;
    var b, b' := Lookup(Received(before), t), Lookup(Received(us), t);
    StepQuote(Received(before), u, t, side);
    QuotedStep(us, t, side);
    SetsNow(us, t, side);
    SetsLastStep(us, last, t, side);
    QuoteIsOnlyThat(u, t, side, PriceOf(b, side));
    BestOfNone(side);
    forall i: nat | SetsLast(us, i, t, side) ensures Shows(b', us, i, t, side) && Quoted(us, t, side) != [] {
      SetsLastStep(us, i, t, side);
      assert Quoted(us, t, side) != [];
      if i == last {
        LeftOfLast(us, t, side);
      } else {
        assert Shows(b, before, i, t, side);
        LeftStep(us, i, t, side);
        BetterIs(side, PriceOf(b, side), u.price);
      }
    }
    if Quoted(us, t, side) != [] && !Sets(us, last, t, side) {
      BetterIs(side, PriceOf(b, side), u.price);
      var i: nat :| SetsLast(before, i, t, side);
      assert Shows(b, before, i, t, side);
      SetsLastStep(us, i, t, side);
    }
  }

  lemma QuoteIsOnlyThat(u: MarketUpdate, t: TickerId, side: Side, price: Price)
    ensures IsQuote(u, t, side) ==> !IsClear(u, t) && !Takes(u, t, side, price) && !Wipes(u, t, side, price)
  {
  }

  lemma BestOfNone(side: Side)
    ensures BestOf(side, []) == INVALID_PRICE
  {
  }

  lemma SetsNow(us: seq<MarketUpdate>, t: TickerId, side: Side)
    requires us != []
    ensures var u := us[|us| - 1];
      Sets(us, |us| - 1, t, side) <==> IsQuote(u, t, side) && u.price == BestOf(side, Quoted(us, t, side))
  {
    hide IsQuote, BestOf, Quoted;
    assert us[..|us|] == us;
  }

  lemma LeftOfLast(us: seq<MarketUpdate>, t: TickerId, side: Side)
    requires us != []
    ensures LeftOf(us, |us| - 1, t, side) == us[|us| - 1].qty
  {
    assert us[|us|..] == [];
  }

  lemma BetterIs(side: Side, best: Price, price: Price)
    ensures Better(side, best, price) == best || Better(side, best, price) == price
    ensures Better(side, INVALID_PRICE, price) == price
  {
  }
}
