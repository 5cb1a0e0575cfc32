/** The trade engine read off its history: which orders are open and what is left of them,
    what a ticker has traded and at which prices, and what a submission is told. Each is
    stated from the events of a run and proved of the state the engine keeps. */
module TradeHistory {
  import opened Types
  import opened Arithmetic
  import opened Protocol
  import opened Position
  import opened Risk
  import opened TradeEngine
  import opened TradeRuns
  import MarketData
  import PositionRuns

  // ---------------------------------------------------------------- the life of an order

  /** The event submits an order that passes the checks and gets this id. */
  predicate Opens(cfg: Config, s: EngineState, e: Event, id: nat) {
    Accepts(cfg, s, e) && IdFor(s, e.callback) == id
  }

  predicate Closes(e: Event, id: nat) {
    e.Resetting? || (e.Responding? && e.response.clientOrderId == id && EndsOrder(e.response))
  }

  predicate IsFill(e: Event, id: nat) {
    e.Responding? && e.response.clientOrderId == id && e.response.msgType == ResponseCode(ResponseType.Filled)
  }

  /** Orders submitted and passed since the last reset. */
  ghost function SubmittedIn(cfg: Config, es: seq<Event>): nat {
    if es == [] || es[|es| - 1].Resetting? then 0
    else SubmittedIn(cfg, es[..|es| - 1]) + if Accepts(cfg, Run(cfg, es[..|es| - 1]), es[|es| - 1]) then 1 else 0
  }

  /** Told from the events: its id is the callback's or, without one, the next number. */
  ghost predicate OpenedBy(cfg: Config, before: seq<Event>, e: Event, id: nat) {
    && Accepts(cfg, Run(cfg, before), e)
    && id == match e.callback case Some(given) => given case None => SubmittedIn(cfg, before) + 1
  }

  lemma StepSubmitted(cfg: Config, s: EngineState, e: Event)
    ensures Apply(cfg, s, e).submitted ==
      if e.Resetting? then 0 else s.submitted + if Accepts(cfg, s, e) then 1 else 0
  {
    hide ResponseTypeOf, CheckRisk, Fill, TotalPnl, UpdateTypeOf, MarketData.BboStep, MarketData.MidPrice, Mark;
  }

  lemma {:induction false} SubmittedIs(cfg: Config, es: seq<Event>)
    ensures Run(cfg, es).submitted == SubmittedIn(cfg, es)
  {
    hide Apply, Accepts;
    if es == [] {
    } else {
      SubmittedIs(cfg, es[..|es| - 1]);
      StepSubmitted(cfg, Run(cfg, es[..|es| - 1]), es[|es| - 1]);
    }
  }

  lemma OpenedIsOpens(cfg: Config, before: seq<Event>, e: Event, id: nat)
    ensures OpenedBy(cfg, before, e, id) <==> Opens(cfg, Run(cfg, before), e, id)
  {
    hide Run, CheckRisk;
    SubmittedIs(cfg, before);
  }

  /** The order was opened by event i and nothing has closed it since. */
  ghost predicate OpenSince(cfg: Config, es: seq<Event>, i: nat, id: nat) {
    && i < |es| && OpenedBy(cfg, es[..i], es[i], id)
    && forall j | i < j < |es| :: !Closes(es[j], id)
  }

  /** All that was executed of an order in the given events. */
  function Executed(es: seq<Event>, id: nat): nat {
    if es == [] then 0
    else Executed(es[..|es| - 1], id) + if IsFill(es[|es| - 1], id) then es[|es| - 1].response.execQty else 0
  }

  function Pending(s: EngineState, id: nat): Option<Tracked> {
    if id in s.pending then Some(s.pending[id]) else None
  }

  lemma RespondPending(s: EngineState, r: ClientResponse, id: nat)
    requires WellFormedResponse(s, r)
    ensures Pending(Respond(s, r), id) ==
      if Closes(Responding(r), id) then None
      else if IsFill(Responding(r), id) && id in s.pending then Some(s.pending[id].(leaves := r.leavesQty))
      else Pending(s, id)
    ensures IsFill(Responding(r), id) && id in s.pending ==> r.execQty + r.leavesQty == s.pending[id].leaves
  {
    hide Fill, TotalPnl, RemoveOpen;
  }

  /** What one event does to the order with the given id. */
  lemma StepPending(cfg: Config, s: EngineState, e: Event, id: nat)
    requires WellFormed(s, e)
    ensures Pending(Apply(cfg, s, e), id) ==
      if Opens(cfg, s, e, id) then Some(Tracked(e.ticker, e.side, e.price, e.qty, e.qty))
      else if Closes(e, id) then None
      else if IsFill(e, id) && id in s.pending then Some(s.pending[id].(leaves := e.response.leavesQty))
      else Pending(s, id)
    ensures IsFill(e, id) && id in s.pending ==> e.response.execQty + e.response.leavesQty == s.pending[id].leaves
  {
    hide Respond, CheckRisk, AddOpen, TotalPnl, UpdateTypeOf, MarketData.BboStep, MarketData.MidPrice, EndsOrder;
    if e.Responding? {
      RespondPending(s, e.response, id);
    }
  }

  /** The last event opens the order, or it was open before and is not closed. */
  lemma OpenSinceStep(cfg: Config, es: seq<Event>, i: nat, id: nat)
    requires es != []
    ensures var before, e := es[..|es| - 1], es[|es| - 1];
      OpenSince(cfg, es, i, id) <==>
        if i == |es| - 1 then Opens(cfg, Run(cfg, before), e, id)
        else OpenSince(cfg, before, i, id) && !Closes(e, id)
  {
    hide Run, Opens, OpenedBy, Closes;
    var before := es[..|es| - 1];
    OpenedIsOpens(cfg, before, es[|es| - 1], id);
    if i < |es| - 1 {
      assert es[..i] == before[..i] && es[i] == before[i];
      assert forall j | i < j < |es| - 1 :: es[j] == before[j];
    }
  }

  lemma ExecutedStep(es: seq<Event>, i: nat, id: nat)
    requires i < |es| - 1
    ensures var before, e := es[..|es| - 1], es[|es| - 1];
      Executed(es[i + 1..], id) ==
        Executed(before[i + 1..], id) + if IsFill(e, id) then e.response.execQty else 0
  {
    var later := es[i + 1..];
    assert later[..|later| - 1] == es[..|es| - 1][i + 1..];
  }

  /** What the history says of an order opened by event i. */
  ghost predicate IsOrderOf(o: Tracked, es: seq<Event>, i: nat, id: nat) {
    && i < |es| && es[i].Submitting?
    && o.ticker == es[i].ticker && o.side == es[i].side && o.price == es[i].price && o.originalQty == es[i].qty
    && o.leaves == es[i].qty - Executed(es[i + 1..], id)
  }

  /** Over every well-formed run: an order is tracked exactly if it was submitted, passed the
      checks, and since then was neither ended by a response nor forgotten by a reset; it is
      tracked as it was submitted, and what is left of it is its quantity less all that was
      executed of it. */
  lemma {:induction false} TrackedExactly(cfg: Config, es: seq<Event>, id: nat)
    requires WellFormedRun(cfg, es)
    ensures id in Run(cfg, es).pending <==> exists i :: OpenSince(cfg, es, i, id)
    ensures forall i | OpenSince(cfg, es, i, id) :: IsOrderOf(Run(cfg, es).pending[id], es, i, id)
  {
    hide OpenSince, Apply, WellFormed, IsOrderOf;
    if es == [] {
      NothingOpen(cfg, id);
    } else {
      TrackedExactly(cfg, es[..|es| - 1], id);
      assert AgreesWithHistory(cfg, Run(cfg, es[..|es| - 1]), es[..|es| - 1], id);
      TrackedStep(cfg, es, id);
    }
  }

  lemma NothingOpen(cfg: Config, id: nat)
    ensures id !in Run(cfg, []).pending && forall i :: !OpenSince(cfg, [], i, id)
  {
  }

  /** The history of an order and what is tracked of it agree. */
  ghost predicate AgreesWithHistory(cfg: Config, s: EngineState, es: seq<Event>, id: nat) {
    && (id in s.pending <==> exists i :: OpenSince(cfg, es, i, id))
    && (forall i | OpenSince(cfg, es, i, id) :: IsOrderOf(s.pending[id], es, i, id))
  }

  lemma TrackedStep(cfg: Config, es: seq<Event>, id: nat)
    requires es != [] && WellFormed(Run(cfg, es[..|es| - 1]), es[|es| - 1])
    requires AgreesWithHistory(cfg, Run(cfg, es[..|es| - 1]), es[..|es| - 1], id)
    ensures AgreesWithHistory(cfg, Run(cfg, es), es, id)
  {
    hide OpenSince, Apply, Opens, IsOrderOf, Closes, IsFill, Run, WellFormed;
    var s' := Run(cfg, es);
    forall i | OpenSince(cfg, es, i, id) ensures id in s'.pending && IsOrderOf(s'.pending[id], es, i, id) {
      OpenIsTracked(cfg, es, i, id);
    }
    if id in s'.pending {
      var i := TrackedIsOpen(cfg, es, id);
    }
  }

  lemma OpenIsTracked(cfg: Config, es: seq<Event>, i: nat, id: nat)
    requires es != [] && WellFormed(Run(cfg, es[..|es| - 1]), es[|es| - 1])
    requires AgreesWithHistory(cfg, Run(cfg, es[..|es| - 1]), es[..|es| - 1], id) && OpenSince(cfg, es, i, id)
    ensures id in Run(cfg, es).pending && IsOrderOf(Run(cfg, es).pending[id], es, i, id)
  {
    hide OpenSince, Apply, Opens, IsOrderOf, Closes, IsFill, WellFormed;
    var before, e := es[..|es| - 1], es[|es| - 1];
    var s, s' := Run(cfg, before), Run(cfg, es);
    StepPending(cfg, s, e, id);
    OpenSinceStep(cfg, es, i, id);
    if i == |es| - 1 {
      OrderAsSubmitted(cfg, s, es, id);
    } else {
      OpenedEarlier(cfg, before, i, id);
      NotOpenedTwice(cfg, s, e, id);
      OrderAsFilled(s.pending[id], s'.pending[id], es, i, id);
    }
  }

  lemma TrackedIsOpen(cfg: Config, es: seq<Event>, id: nat) returns (i: nat)
    requires es != [] && WellFormed(Run(cfg, es[..|es| - 1]), es[|es| - 1])
    requires AgreesWithHistory(cfg, Run(cfg, es[..|es| - 1]), es[..|es| - 1], id) && id in Run(cfg, es).pending
    ensures OpenSince(cfg, es, i, id)
  {
    hide OpenSince, Apply, Opens, IsOrderOf, Closes, IsFill, WellFormed;
    var before, e := es[..|es| - 1], es[|es| - 1];
    StepPending(cfg, Run(cfg, before), e, id);
    if Opens(cfg, Run(cfg, before), e, id) {
      i := |es| - 1;
    } else {
      i :| OpenSince(cfg, before, i, id);
      OpenedEarlier(cfg, before, i, id);
    }
    OpenSinceStep(cfg, es, i, id);
  }

  lemma NotOpenedTwice(cfg: Config, s: EngineState, e: Event, id: nat)
    requires WellFormed(s, e) && id in s.pending
    ensures !Opens(cfg, s, e, id)
  {
    hide CheckRisk;
  }

  lemma OpenedEarlier(cfg: Config, es: seq<Event>, i: nat, id: nat)
    requires OpenSince(cfg, es, i, id)
    ensures i < |es|
  {
    hide OpenedBy, Closes;
  }

  lemma OrderAsSubmitted(cfg: Config, s: EngineState, es: seq<Event>, id: nat)
    requires es != [] && Opens(cfg, s, es[|es| - 1], id)
    ensures var e := es[|es| - 1];
      IsOrderOf(Tracked(e.ticker, e.side, e.price, e.qty, e.qty), es, |es| - 1, id)
  {
    hide CheckRisk;
    assert es[|es|..] == [];
  }

  lemma OrderAsFilled(o: Tracked, o': Tracked, es: seq<Event>, i: nat, id: nat)
    requires i < |es| - 1 && IsOrderOf(o, es[..|es| - 1], i, id)
    requires var e := es[|es| - 1];
      if IsFill(e, id) then
        o' == o.(leaves := e.response.leavesQty) && e.response.execQty + e.response.leavesQty == o.leaves
      else o' == o
    ensures IsOrderOf(o', es, i, id)
  {
    hide IsFill, Executed;
    ExecutedStep(es, i, id);
  }

  // ---------------------------------------------------------------- what a ticker traded

  /** Some order of the ticker was ever accepted. */
  ghost predicate Known(cfg: Config, es: seq<Event>, t: TickerId) {
    es != [] &&
    var before, e := es[..|es| - 1], es[|es| - 1];
    Known(cfg, before, t) || (Accepts(cfg, Run(cfg, before), e) && e.ticker == t)
  }

  /** The side on which an open order was submitted. */
  ghost function SideOfOpen(cfg: Config, es: seq<Event>, id: nat): Side
    requires exists i :: OpenSince(cfg, es, i, id)
  {
    var i: nat :| OpenSince(cfg, es, i, id);
    es[i].side
  }

  /** The price at which an event marks a ticker: that of a trade on the market, or the mid
      price of a quote with both sides. */
  function MarkOf(e: Event, t: TickerId): Option<int> {
    match e
    case MarketUpdated(u) =>
      if u.tickerId == t && u.msgType == UpdateCode(UpdateType.Trade) then Some(u.price) else None
    case Quoted(k, b) =>
      if k == t && b.bidQty > 0 && b.askQty > 0 && b.bidPrice != INVALID_PRICE && b.askPrice != INVALID_PRICE
      then Some(TruncDiv(b.bidPrice + b.askPrice, 2)) else None
    case _ => None
  }

  /** A fill of an open order trades on the order's side at the fill's price; a mark counts
      once the ticker is known. */
  ghost function TradeOf(cfg: Config, before: seq<Event>, e: Event, t: TickerId): seq<PositionRuns.Event> {
    if e.Responding? then
      var r := e.response;
      if r.tickerId == t && IsFill(e, r.clientOrderId) && exists i :: OpenSince(cfg, before, i, r.clientOrderId) then
        [PositionRuns.Filled(SideOfOpen(cfg, before, r.clientOrderId), r.execQty, r.price)]
      else []
    else if MarkOf(e, t).Some? && Known(cfg, before, t) then [PositionRuns.Marked(MarkOf(e, t).value)]
    else []
  }

  /** All fills and marks of a ticker over a run. */
  ghost function TradesOf(cfg: Config, es: seq<Event>, t: TickerId): seq<PositionRuns.Event> {
    if es == [] then []
    else TradesOf(cfg, es[..|es| - 1], t) + TradeOf(cfg, es[..|es| - 1], es[|es| - 1], t)
  }

  /** The same position, but for its open orders. */
  predicate SameBut(p: PositionState, q: PositionState) {
    p == q.(openBuyQty := p.openBuyQty, openSellQty := p.openSellQty)
  }

  /** What the state holds of a ticker is what its trades make. */
  ghost predicate PositionAgrees(cfg: Config, s: EngineState, es: seq<Event>, t: TickerId) {
    && (t in s.positions <==> Known(cfg, es, t))
    && SameBut(PositionOf(s, t), PositionRuns.Run(t, TradesOf(cfg, es, t)))
  }

  lemma FillIgnoresOpen(p: PositionState, q: PositionState, side: Side, qty: nat, price: int, open: nat)
    requires SameBut(p, q)
    ensures SameBut(RemoveOpen(Fill(p, side, qty, price), side, open), Fill(q, side, qty, price))
  {
    hide AvgAfter, RealizedBy, Unrealized;
  }

  lemma MarkIgnoresOpen(p: PositionState, q: PositionState, price: int)
    requires SameBut(p, q)
    ensures SameBut(Mark(p, price), Mark(q, price))
  {
    hide Unrealized;
  }

  /** One more trade or mark. */
  lemma OneMore(t: TickerId, trades: seq<PositionRuns.Event>, x: PositionRuns.Event)
    ensures PositionRuns.Run(t, trades + [x]) == PositionRuns.Apply(PositionRuns.Run(t, trades), x)
    ensures trades + [] == trades
  {
    hide PositionRuns.Apply;
    assert (trades + [x])[..|trades|] == trades;
  }

  /** What a response does to the position of a ticker. */
  lemma RespondPosition(s: EngineState, r: ClientResponse, t: TickerId)
    requires WellFormedResponse(s, r)
    requires forall id | id in s.pending :: s.pending[id].ticker in s.positions
    ensures var id, s' := r.clientOrderId, Respond(s, r);
      && s'.positions.Keys == s.positions.Keys
      && if r.tickerId == t && IsFill(Responding(r), id) && id in s.pending then
           var side := s.pending[id].side;
           PositionOf(s', t) == RemoveOpen(Fill(PositionOf(s, t), side, r.execQty, r.price), side, r.execQty)
         else SameBut(PositionOf(s', t), PositionOf(s, t))
  {
    hide Fill, TotalPnl;
  }

  lemma SideIs(cfg: Config, es: seq<Event>, id: nat)
    requires WellFormedRun(cfg, es) && id in Run(cfg, es).pending
    ensures exists i :: OpenSince(cfg, es, i, id)
    ensures SideOfOpen(cfg, es, id) == Run(cfg, es).pending[id].side
  {
    hide OpenSince, Run, WellFormedRun, Executed;
    TrackedExactly(cfg, es, id);
  }

  lemma RespondTrade(cfg: Config, before: seq<Event>, r: ClientResponse, t: TickerId)
    requires WellFormedRun(cfg, before)
    ensures var s, e, id := Run(cfg, before), Responding(r), r.clientOrderId;
      TradeOf(cfg, before, e, t) ==
        if r.tickerId == t && IsFill(e, id) && id in s.pending
        then [PositionRuns.Filled(s.pending[id].side, r.execQty, r.price)] else []
  {
    hide OpenSince, Run, WellFormedRun, IsOrderOf, SideOfOpen, IsFill;
    var id := r.clientOrderId;
    TrackedExactly(cfg, before, id);
    if id in Run(cfg, before).pending {
      SideIs(cfg, before, id);
    }
  }

  /** What any other event does to it. */
  lemma OtherPosition(cfg: Config, s: EngineState, e: Event, t: TickerId)
    requires !e.Responding?
    ensures var s' := Apply(cfg, s, e);
      && (t in s'.positions <==> t in s.positions || (Accepts(cfg, s, e) && e.ticker == t))
      && if MarkOf(e, t).Some? && t in s.positions then PositionOf(s', t) == Mark(PositionOf(s, t), MarkOf(e, t).value)
         else SameBut(PositionOf(s', t), PositionOf(s, t))
  {
    hide CheckRisk, TotalPnl, Mark, MarketData.BboStep, TruncDiv;
  }

  lemma StepPosition(cfg: Config, before: seq<Event>, e: Event, t: TickerId)
    requires WellFormedRun(cfg, before) && WellFormed(Run(cfg, before), e)
    requires PositionAgrees(cfg, Run(cfg, before), before, t) && OrdersHavePositions(Run(cfg, before))
    ensures SameBut(PositionOf(Apply(cfg, Run(cfg, before), e), t),
                    PositionRuns.Run(t, TradesOf(cfg, before, t) + TradeOf(cfg, before, e, t)))
  {
    hide Run, WellFormedRun, Respond, Fill, Mark, Known, IsFill, OpenSince, SideOfOpen, MarkOf, TradesOf, CheckRisk,
         PositionOf, WellFormedResponse;
    var s, trades, trade := Run(cfg, before), TradesOf(cfg, before, t), TradeOf(cfg, before, e, t);
    if e.Responding? {
      RespondTrade(cfg, before, e.response, t);
      RespondPosition(s, e.response, t);
    } else {
      OtherPosition(cfg, s, e, t);
    }
    if trade == [] {
      assert trades + trade == trades;
    } else {
      var x, p := trade[0], PositionRuns.Run(t, trades);
      assert trades + trade == trades + [x];
      OneMore(t, trades, x);
      match x {
        case Filled(side, qty, price) => FillIgnoresOpen(PositionOf(s, t), p, side, qty, price, qty);
        case Marked(price) => MarkIgnoresOpen(PositionOf(s, t), p, price);
      }
    }
  }

  /** Every tracked order's ticker has a position. */
  ghost predicate OrdersHavePositions(s: EngineState) {
    forall id | id in s.pending :: s.pending[id].ticker in s.positions
  }

  lemma StepKnows(cfg: Config, s: EngineState, e: Event, t: TickerId)
    requires WellFormed(s, e) && OrdersHavePositions(s)
    ensures OrdersHavePositions(Apply(cfg, s, e))
    ensures t in Apply(cfg, s, e).positions <==> t in s.positions || (Accepts(cfg, s, e) && e.ticker == t)
  {
    hide Fill, TotalPnl, Mark, CheckRisk, AddOpen, RemoveOpen, MarketData.BboStep, MarketData.MidPrice;
  }

  /** Over every well-formed run: but for its open orders, the position the engine keeps of a
      ticker is the one that its fills and marks make, in order and at their own prices. */
  lemma {:induction false} PositionIsItsTrades(cfg: Config, es: seq<Event>, t: TickerId)
    requires WellFormedRun(cfg, es)
    ensures PositionAgrees(cfg, Run(cfg, es), es, t) && OrdersHavePositions(Run(cfg, es))
  {
    hide Apply, WellFormed, TradeOf, SameBut, OrdersHavePositions, Accepts, PositionRuns.Run;
    if es == [] {
      NothingTraded(cfg, t);
    } else {
      var before, e := es[..|es| - 1], es[|es| - 1];
      PositionIsItsTrades(cfg, before, t);
      StepPosition(cfg, before, e, t);
      StepKnows(cfg, Run(cfg, before), e, t);
    }
  }

  lemma NothingTraded(cfg: Config, t: TickerId)
    ensures SameBut(PositionOf(NewEngine(cfg), t), PositionRuns.Run(t, [])) && OrdersHavePositions(NewEngine(cfg))
  {
  }

  /** So the position is the signed sum of its fills, and its profit their cash flow plus the
      position at the last price traded or marked, up to the truncated averages. */
  lemma EngineProfit(cfg: Config, es: seq<Event>, t: TickerId)
    requires WellFormedRun(cfg, es)
    ensures var p, trades := PositionOf(Run(cfg, es), t), TradesOf(cfg, es, t);
      && p.ticker == t
      && p.position == PositionRuns.NetQty(trades)
      && p.realized + p.unrealized == PositionRuns.Cash(trades)
           + PositionRuns.NetQty(trades) * PositionRuns.LastPrice(trades) + PositionRuns.Drift(t, trades)
  {
    hide Run, WellFormedRun, TradesOf, PositionRuns.NetQty, PositionRuns.LastPrice, PositionRuns.Drift,
         PositionRuns.Cash, PositionOf, Known, OrdersHavePositions, PositionRuns.Run;
    PositionIsItsTrades(cfg, es, t);
    PositionRuns.PnlConservation(t, TradesOf(cfg, es, t));
    TickerKept(t, TradesOf(cfg, es, t));
  }

  lemma {:induction false} TickerKept(t: TickerId, trades: seq<PositionRuns.Event>)
    ensures PositionRuns.Run(t, trades).ticker == t
  {
    hide AvgAfter, RealizedBy, Unrealized;
    if trades == [] {
    } else {
      TickerKept(t, trades[..|trades| - 1]);
    }
  }

  // ---------------------------------------------------------------- what a submission is told

  /** With risk checks off every submission passes. With them on, it is judged by the limits
      its run has put in force for its ticker, the number of the ticker's tracked orders, the
      position its fills make and the profit they made; the first limit that it fails is the
      reason it is told. */
  lemma SubmissionVerdict(cfg: Config, es: seq<Event>, e: Event)
    requires WellFormedRun(cfg, es) && e.Submitting?
    ensures !cfg.enableRiskChecks ==> CheckRisk(cfg, Run(cfg, es), e.ticker, e.side, e.qty) == Allowed
    ensures var s, t, l := Run(cfg, es), e.ticker, LimitsAfter(cfg, es, e.ticker);
      var p := PositionRuns.Run(t, TradesOf(cfg, es, t));
      var verdict := CheckRisk(cfg, s, t, e.side, e.qty);
      var many, large, past, loss := TrackedCount(s, t) >= l.maxOpenOrders, e.qty > l.maxOrderQty,
        PastLimit(l, p.position, OpenQty(s, t, Buy), OpenQty(s, t, Sell), e.side, e.qty),
        p.realized + p.unrealized + l.maxLoss < 0;
      cfg.enableRiskChecks ==>
        && (verdict == OpenOrdersTooMany <==> many)
        && (verdict == OrderTooLarge <==> !many && large)
        && (verdict == PositionTooLarge <==> !many && !large && past)
        && (verdict == LossTooLarge <==> !many && !large && !past && loss)
        && (verdict == Allowed <==> !many && !large && !past && !loss)
  {
    hide Run, WellFormedRun, TrackedCount, TradesOf, PositionRuns.Run, PositionOf, Known, OrdersHavePositions,
         PastLimit, CheckOrderWithOpenOrders, Configured, InForce;
    var s, t := Run(cfg, es), e.ticker;
    PositionIsItsTrades(cfg, es, t);
    if cfg.enableRiskChecks {
      CountsAgree(cfg, es, t);
    }
    RunConfigures(cfg, es);
    VerdictOfLimitsInForce(cfg.defaults, ChangesIn(es), PositionOf(s, t), e.side, e.qty, CountFor(s, t));
  }

  // ---------------------------------------------------------------- quotes

  /** The best bid and offer of a ticker: as last set by `update_bbo`, or nothing after a
      reset, followed through the market updates since. */
  function BboFrom(es: seq<Event>, t: TickerId): MarketData.BBO {
    if es == [] then MarketData.NewBBO()
    else
      match es[|es| - 1]
      case Resetting => MarketData.NewBBO()
      case Quoted(k, b) => if k == t then b else BboFrom(es[..|es| - 1], t)
      case MarketUpdated(u) =>
        if u.tickerId == t then MarketData.BboStep(BboFrom(es[..|es| - 1], t), u) else BboFrom(es[..|es| - 1], t)
      case _ => BboFrom(es[..|es| - 1], t)
  }

  lemma StepBbo(cfg: Config, s: EngineState, e: Event, t: TickerId)
    ensures MarketData.Lookup(Apply(cfg, s, e).bbo, t) ==
      match e
      case Resetting => MarketData.NewBBO()
      case Quoted(k, b) => if k == t then b else MarketData.Lookup(s.bbo, t)
      case MarketUpdated(u) =>
        if u.tickerId == t then MarketData.BboStep(MarketData.Lookup(s.bbo, t), u) else MarketData.Lookup(s.bbo, t)
      case _ => MarketData.Lookup(s.bbo, t)
  {
    hide ResponseTypeOf, CheckRisk, Fill, TotalPnl, Mark, MarketData.BboStep, MarketData.MidPrice, UpdateTypeOf;
  }

  lemma {:induction false} EngineBboIs(cfg: Config, es: seq<Event>, t: TickerId)
    ensures MarketData.Lookup(Run(cfg, es).bbo, t) == BboFrom(es, t)
  {
    hide Apply, MarketData.BboStep, MarketData.Lookup;
    if es == [] {
      NoBbo(t);
    } else {
      EngineBboIs(cfg, es[..|es| - 1], t);
      StepBbo(cfg, Run(cfg, es[..|es| - 1]), es[|es| - 1], t);
    }
  }

  lemma NoBbo(t: TickerId)
    ensures MarketData.Lookup(map[], t) == MarketData.NewBBO()
  {
  }
}
