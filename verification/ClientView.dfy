/** How the client's best bid and offer relate to the exchange's books. */
module ClientView {
  import opened Types
  import opened Protocol
  import opened OrderBook
  import opened MatchingEngine
  import opened EngineRuns
  import opened MarketData

  // ---------------------------------------------------------------- prices ever added

  predicate IsKind(u: MarketUpdate, ticker: TickerId, kind: UpdateType) {
    u.tickerId == ticker && UpdateTypeOf(u.msgType) == Some(kind)
  }

  /** The prices of the Add updates of one ticker and side, in order. */
  function Added(us: seq<MarketUpdate>, ticker: TickerId, side: Side): seq<Price> {
    if us == [] then []
    else
      var u := us[|us| - 1];
      Added(us[..|us| - 1], ticker, side) +
      if IsKind(u, ticker, Add) && u.side == SideCode(side) then [u.price] else []
  }

  function BidAfter(ps: seq<Price>): Price {
    if ps == [] then INVALID_PRICE else BestOfBid(BidAfter(ps[..|ps| - 1]), ps[|ps| - 1])
  }

  function AskAfter(ps: seq<Price>): Price {
    if ps == [] then INVALID_PRICE else BestOfAsk(AskAfter(ps[..|ps| - 1]), ps[|ps| - 1])
  }

  /** Only Add and Cancel updates, as the matching engine publishes them. */
  predicate AddsAndCancels(us: seq<MarketUpdate>) {
    forall i | 0 <= i < |us| :: UpdateTypeOf(us[i].msgType) in {Some(Add), Some(Cancel)}
  }

  lemma {:induction false} BboTracksAdds(us: seq<MarketUpdate>, ticker: TickerId)
    requires AddsAndCancels(us)
    ensures var b := Lookup(Received(us), ticker);
      && b.bidPrice == BidAfter(Added(us, ticker, Buy))
      && b.askPrice == AskAfter(Added(us, ticker, Sell))
  {
    hide BestOfBid, BestOfAsk, UpdateTypeOf, ReceiverStep, Lookup;
    if us == [] {
      NoPrices(ticker);
    } else {
      var before, u := us[..|us| - 1], us[|us| - 1];
      BboTracksAdds(before, ticker);
      PriceStep(Received(before), u, ticker);
      FoldStep(Added(before, ticker, Buy), u.price);
      FoldStep(Added(before, ticker, Sell), u.price);
    }
  }

  lemma NoPrices(ticker: TickerId)
    ensures Lookup(map[], ticker) == NewBBO()
  {
  }

  lemma PriceStep(m: BboMap, u: MarketUpdate, ticker: TickerId)
    requires UpdateTypeOf(u.msgType) in {Some(Add), Some(Cancel)}
    ensures var b, b' := Lookup(m, ticker), Lookup(ReceiverStep(m, u), ticker);
      var added := IsKind(u, ticker, Add);
      && b'.bidPrice == (if added && u.side == SideCode(Buy) then BestOfBid(b.bidPrice, u.price) else b.bidPrice)
      && b'.askPrice == (if added && u.side == SideCode(Sell) then BestOfAsk(b.askPrice, u.price) else b.askPrice)
  {
    hide BestOfBid, BestOfAsk, UpdateTypeOf, AfterCancel;
  }

  lemma FoldStep(ps: seq<Price>, p: Price)
    ensures BidAfter(ps + [p]) == BestOfBid(BidAfter(ps), p)
    ensures AskAfter(ps + [p]) == BestOfAsk(AskAfter(ps), p)
    ensures ps + [] == ps
  {
    assert (ps + [p])[..|ps|] == ps;
  }

  // ---------------------------------------------------------------- highest and lowest

  predicate Highest(ps: seq<Price>, x: Price) {
    if ps == [] then x == INVALID_PRICE else x in ps && forall p | p in ps :: p <= x
  }

  predicate Lowest(ps: seq<Price>, x: Price) {
    if ps == [] then x == INVALID_PRICE else x in ps && forall p | p in ps :: x <= p
  }

  /** If the sentinel price was added at all, it was added last. */
  predicate SentinelOnlyLast(ps: seq<Price>) {
    INVALID_PRICE in ps ==> ps[|ps| - 1] == INVALID_PRICE
  }

  lemma SplitLast(ps: seq<Price>)
    requires ps != []
    ensures forall p :: p in ps <==> p in ps[..|ps| - 1] || p == ps[|ps| - 1]
  {
    assert ps == ps[..|ps| - 1] + [ps[|ps| - 1]];
  }

  /** The ask is the lowest price ever added, whatever the prices. */
  lemma {:induction false} AskIsLowest(ps: seq<Price>)
    ensures Lowest(ps, AskAfter(ps))
  {
    if ps == [] {
    } else {
      AskIsLowest(ps[..|ps| - 1]);
      SplitLast(ps);
    }
  }

  lemma {:induction false} BidIsHighest(ps: seq<Price>)
    requires INVALID_PRICE !in ps
    ensures Highest(ps, BidAfter(ps))
  {
    if ps == [] {
    } else {
      BidIsHighest(ps[..|ps| - 1]);
      SplitLast(ps);
    }
  }

  /** The bid is the highest price added exactly when no buy at the sentinel price came
      before a last buy at a real one. */
  lemma BidIsHighestIff(ps: seq<Price>)
    ensures Highest(ps, BidAfter(ps)) <==> SentinelOnlyLast(ps)
  {
    if INVALID_PRICE !in ps {
      BidIsHighest(ps);
    }
  }

  // ---------------------------------------------------------------- against the true book

  /** Every live order's price was added. */
  ghost predicate LiveWereAdded(live: Live, us: seq<MarketUpdate>, ticker: TickerId) {
    forall id | id in live :: live[id].price in Added(us, ticker, live[id].side)
  }

  /** Every price added is still quoted. */
  ghost predicate AddedAreLive(live: Live, us: seq<MarketUpdate>, ticker: TickerId) {
    forall side: Side, p | p in Added(us, ticker, side) :: exists id :: Quotes(live, id, side, p)
  }

  predicate NoCancels(us: seq<MarketUpdate>, ticker: TickerId) {
    forall i | 0 <= i < |us| :: !IsKind(us[i], ticker, Cancel)
  }

  /** What one command does to the live orders of a ticker, read off the update it emits. */
  lemma CommandEffect(m: EngineModel, c: Command, ticker: TickerId)
    ensures var us, live, live' := Emitted(m, c), LiveOf(m, ticker), LiveOf(Apply(m, c), ticker);
      && |us| <= 1 && AddsAndCancels(us)
      && (us == [] || us[0].tickerId != ticker ==> live' == live)
      && (us != [] && IsKind(us[0], ticker, Cancel) ==> forall id | id in live' :: id in live && live'[id] == live[id])
      && (us != [] && IsKind(us[0], ticker, Add) ==>
            && us[0].orderId !in live && us[0].orderId in live'
            && us[0].side == SideCode(live'[us[0].orderId].side) && us[0].price == live'[us[0].orderId].price
            && (forall id | id in live' && id != us[0].orderId :: id in live && live'[id] == live[id])
            && (forall id | id in live :: id in live' && live'[id] == live[id]))
  {
  }

  lemma {:induction false} LiveAndAdded(cs: seq<Command>, ticker: TickerId)
    ensures AddsAndCancels(Updates(cs))
    ensures LiveWereAdded(LiveOf(Run(cs), ticker), Updates(cs), ticker)
    ensures NoCancels(Updates(cs), ticker) ==> AddedAreLive(LiveOf(Run(cs), ticker), Updates(cs), ticker)
  {
    hide Apply, Emitted, UpdateTypeOf, LiveOf, LiveWereAdded, AddedAreLive, NoCancels;
    if cs == [] {
      NothingAdded(ticker);
    } else {
      var before, c := cs[..|cs| - 1], cs[|cs| - 1];
      LiveAndAdded(before, ticker);
      CommandEffect(Run(before), c, ticker);
      LiveAndAddedStep(Run(before), c, Updates(before), ticker);
    }
  }

  lemma NothingAdded(ticker: TickerId)
    ensures LiveWereAdded(LiveOf(NewEngine(), ticker), [], ticker)
    ensures AddedAreLive(LiveOf(NewEngine(), ticker), [], ticker)
  {
  }

  lemma AddedStep(us: seq<MarketUpdate>, u: MarketUpdate, ticker: TickerId, side: Side)
    ensures Added(us + [u], ticker, side) == Added(us, ticker, side) +
      if IsKind(u, ticker, Add) && u.side == SideCode(side) then [u.price] else []
  {
    assert (us + [u])[..|us|] == us;
  }

  lemma LiveAndAddedStep(m: EngineModel, c: Command, us: seq<MarketUpdate>, ticker: TickerId)
    requires LiveWereAdded(LiveOf(m, ticker), us, ticker)
    requires NoCancels(us, ticker) ==> AddedAreLive(LiveOf(m, ticker), us, ticker)
    ensures var us', live' := us + Emitted(m, c), LiveOf(Apply(m, c), ticker);
      && LiveWereAdded(live', us', ticker)
      && (NoCancels(us', ticker) ==> AddedAreLive(live', us', ticker))
  {
    hide Apply, Emitted, UpdateTypeOf, LiveOf;
    CommandEffect(m, c, ticker);
    var e, live, live' := Emitted(m, c), LiveOf(m, ticker), LiveOf(Apply(m, c), ticker);
    if e == [] {
      assert us + e == us;
    } else {
      var us' := us + [e[0]];
      assert us + e == us';
      AddedStep(us, e[0], ticker, Buy);
      AddedStep(us, e[0], ticker, Sell);
      if NoCancels(us', ticker) {
        assert !IsKind(us'[|us|], ticker, Cancel);
        assert forall i | 0 <= i < |us| :: us'[i] == us[i];
        forall side: Side, p | p in Added(us', ticker, side) ensures exists id :: Quotes(live', id, side, p) {
          if p in Added(us, ticker, side) {
            var id :| Quotes(live, id, side, p);
            assert Quotes(live', id, side, p);
          } else {
            assert Quotes(live', e[0].orderId, side, p);
          }
        }
      }
    }
  }

  /** A client that has seen every update of the exchange: its ask is the lowest sell price
      ever added, its bid the highest buy price ever added exactly if no buy at the sentinel
      price came before a last one at a real price. A side that holds bounds the true best
      price, and is the true one while nothing was cancelled. */
  lemma ClientBboIsSound(cs: seq<Command>, ticker: TickerId)
    ensures var us, live := Updates(cs), LiveOf(Run(cs), ticker);
      var b, buys, sells := Lookup(Received(us), ticker), Added(us, ticker, Buy), Added(us, ticker, Sell);
      && Lowest(sells, b.askPrice)
      && (forall id | id in live && live[id].side == Sell :: b.askPrice <= live[id].price)
      && (NoCancels(us, ticker) ==> IsBest(live, Sell, if sells == [] then None else Some(b.askPrice)))
      && (Highest(buys, b.bidPrice) <==> SentinelOnlyLast(buys))
      && (SentinelOnlyLast(buys) ==>
            forall id | id in live && live[id].side == Buy :: live[id].price <= b.bidPrice)
      && (NoCancels(us, ticker) ==>
            (IsBest(live, Buy, if buys == [] then None else Some(b.bidPrice)) <==> SentinelOnlyLast(buys)))
  {
    hide Updates, Run, Received, LiveOf, Added, BidAfter, AskAfter;
    var us := Updates(cs);
    LiveAndAdded(cs, ticker);
    BboTracksAdds(us, ticker);
    BidIsHighestIff(Added(us, ticker, Buy));
    AskIsLowest(Added(us, ticker, Sell));
  }

  // ---------------------------------------------------------------- a bid that is not the highest

  function BuyAt(ticker: TickerId, client: ClientId, price: Price): Command {
    Request(ClientRequest(RequestCode(NewOrder), client, ticker, 0, SideCode(Buy), price, 1))
  }

  /** Three buys of one: at 100, at the sentinel price, at 50. */
  function SentinelRun(ticker: TickerId, client: ClientId): seq<Command> {
    [AddTicker(ticker), BuyAt(ticker, client, 100), BuyAt(ticker, client, INVALID_PRICE), BuyAt(ticker, client, 50)]
  }

  lemma RunOn(cs: seq<Command>, c: Command)
    ensures Run(cs + [c]) == Apply(Run(cs), c) && Updates(cs + [c]) == Updates(cs) + Emitted(Run(cs), c)
  {
    hide Apply, Emitted;
    assert (cs + [c])[..|cs|] == cs;
  }

  /** While the book has room a buy is added and published. */
  lemma BuyIsAdded(cs: seq<Command>, ticker: TickerId, client: ClientId, price: Price)
    requires ticker in Run(cs).books && CanAdd(Run(cs).books[ticker], Run(cs).nextOrderId)
    ensures var m, cs' := Run(cs), cs + [BuyAt(ticker, client, price)];
      var live := LiveOf(m, ticker);
      && ticker in Run(cs').books && Run(cs').nextOrderId == NextId(m.nextOrderId)
      && LiveOf(Run(cs'), ticker) ==
         live[m.nextOrderId := LiveOrder(client, ticker, Buy, price, 1, m.books[ticker].nextPriority)]
      && Added(Updates(cs'), ticker, Buy) == Added(Updates(cs), ticker, Buy) + [price]
  {
    hide Run, Updates, Added, CanAdd, UpdateTypeOf;
    RunOn(cs, BuyAt(ticker, client, price));
    var us, e := Updates(cs), Emitted(Run(cs), BuyAt(ticker, client, price));
    AddedStep(us, e[0], ticker, Buy);
  }

  /** The client's bid ends at 50, although the order at 100, the first, is still live. */
  lemma SentinelHidesBid(ticker: TickerId, client: ClientId)
    ensures var cs := SentinelRun(ticker, client);
      && Lookup(Received(Updates(cs)), ticker).bidPrice == 50
      && Quotes(LiveOf(Run(cs), ticker), 1, Buy, 100)
      && Added(Updates(cs), ticker, Buy) == [100, INVALID_PRICE, 50]
  {
    hide Run, Updates, Received, Added, BidAfter, Lookup, AddsAndCancels;
    var cs0, cs := [AddTicker(ticker)], SentinelRun(ticker, client);
    BookIsEmpty(ticker);
    BuyIsAdded(cs0, ticker, client, 100);
    var cs1 := cs0 + [BuyAt(ticker, client, 100)];
    BuyIsAdded(cs1, ticker, client, INVALID_PRICE);
    var cs2 := cs1 + [BuyAt(ticker, client, INVALID_PRICE)];
    BuyIsAdded(cs2, ticker, client, 50);
    assert cs2 + [BuyAt(ticker, client, 50)] == cs;
    assert Added(Updates(cs), ticker, Buy) == [100, INVALID_PRICE, 50];
    LiveAndAdded(cs, ticker);
    BboTracksAdds(Updates(cs), ticker);
    BidAfterSentinel();
  }

  lemma BookIsEmpty(ticker: TickerId)
    ensures var m := Run([AddTicker(ticker)]);
      ticker in m.books && m.books[ticker].live == map[] && m.nextOrderId == 1
    ensures Added(Updates([AddTicker(ticker)]), ticker, Buy) == []
  {
    RunOn([], AddTicker(ticker));
    assert [] + [AddTicker(ticker)] == [AddTicker(ticker)];
  }

  lemma BidAfterSentinel()
    ensures BidAfter([100, INVALID_PRICE, 50]) == 50
  {
    FoldStep([], 100);
    FoldStep([100], INVALID_PRICE);
    FoldStep([100, INVALID_PRICE], 50);
    assert [] + [100] == [100] && [100] + [INVALID_PRICE] == [100, INVALID_PRICE];
    assert [100, INVALID_PRICE] + [50] == [100, INVALID_PRICE, 50];
  }
}
