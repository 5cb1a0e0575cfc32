/** What holds over every run of the trade engine: when order counts and open quantities
    agree with the tracked orders, that the cached profit is fresh, and that its best bid and
    offer is the market data receiver's. */
module TradeRuns {
  import opened Types
  import opened Arithmetic
  import opened MapSum
  import opened Protocol
  import opened Position
  import opened Risk
  import opened TradeEngine
  import MarketData

  datatype Event =
    | Submitting(ticker: TickerId, side: Side, price: Price, qty: Qty, callback: Option<nat>)
    | Responding(response: ClientResponse)
    | MarketUpdated(update: MarketUpdate)
    | Quoted(ticker: TickerId, bbo: MarketData.BBO)
    | Resetting
    | LimitsChanged(change: LimitChange)

  ghost function Apply(cfg: Config, s: EngineState, e: Event): EngineState {
    match e
    case Submitting(t, side, price, qty, callback) => Submit(cfg, s, t, side, price, qty, callback)
    case Responding(r) => Respond(s, r)
    case MarketUpdated(u) => OnMarket(s, u)
    case Quoted(t, b) => OnQuote(s, t, b)
    case Resetting => Reset(s)
    case LimitsChanged(c) => s.(risk := Change(s.risk, c))
  }

  ghost function Run(cfg: Config, es: seq<Event>): EngineState {
    if es == [] then NewEngine(cfg) else Apply(cfg, Run(cfg, es[..|es| - 1]), es[|es| - 1])
  }

  // ---------------------------------------------------------------- the environment

  predicate IsFinalFill(r: ClientResponse) {
    ResponseTypeOf(r.msgType) == Some(ResponseType.Filled) && r.leavesQty == 0
  }

  /** A response about a tracked order names its ticker and, if a fill, accounts for what
      was left of it; a final fill is about a tracked order. */
  predicate WellFormedResponse(s: EngineState, r: ClientResponse) {
    if r.clientOrderId in s.pending then
      var o := s.pending[r.clientOrderId];
      && r.tickerId == o.ticker
      && (ResponseTypeOf(r.msgType) == Some(ResponseType.Filled) ==> r.execQty + r.leavesQty == o.leaves)
    else !IsFinalFill(r)
  }

  /** Ids of new orders are not in use. */
  predicate WellFormed(s: EngineState, e: Event) {
    match e
    case Submitting(_, _, _, _, callback) => IdFor(s, callback) !in s.pending
    case Responding(r) => WellFormedResponse(s, r)
    case _ => true
  }

  ghost predicate WellFormedRun(cfg: Config, es: seq<Event>) {
    es == [] || (WellFormedRun(cfg, es[..|es| - 1]) && WellFormed(Run(cfg, es[..|es| - 1]), es[|es| - 1]))
  }

  predicate NoReset(es: seq<Event>) {
    forall i | 0 <= i < |es| :: !es[i].Resetting?
  }

  /** A submission that passes the risk checks. */
  predicate Accepts(cfg: Config, s: EngineState, e: Event) {
    e.Submitting? && CheckRisk(cfg, s, e.ticker, e.side, e.qty) == Allowed
  }

  // ---------------------------------------------------------------- limits

  function ChangesIn(es: seq<Event>): seq<LimitChange> {
    if es == [] then []
    else ChangesIn(es[..|es| - 1]) + if es[|es| - 1].LimitsChanged? then [es[|es| - 1].change] else []
  }

  /** The limits of a ticker after a run, read off its events. */
  function LimitsAfter(cfg: Config, es: seq<Event>, t: TickerId): RiskLimits {
    InForce(cfg.defaults, ChangesIn(es), t)
  }

  lemma LimitsUntouched(cfg: Config, s: EngineState, e: Event)
    requires !e.LimitsChanged?
    ensures Apply(cfg, s, e).risk == s.risk
  {
    hide ResponseTypeOf, CheckRisk, Fill, TotalPnl, UpdateTypeOf, MarketData.BboStep, MarketData.MidPrice, Mark;
  }

  lemma {:induction false} RunConfigures(cfg: Config, es: seq<Event>)
    ensures Run(cfg, es).risk == Configured(cfg.defaults, ChangesIn(es))
  {
    hide Submit, Respond, OnMarket, OnQuote;
    if es == [] {
    } else {
      var before, e := es[..|es| - 1], es[|es| - 1];
      RunConfigures(cfg, before);
      var cs := ChangesIn(before);
      if e.LimitsChanged? {
        assert (cs + [e.change])[..|cs|] == cs;
      } else {
        LimitsUntouched(cfg, Run(cfg, before), e);
        assert cs + [] == cs;
      }
    }
  }

  /** The engine enforces the limits that its events put in force. */
  lemma EngineLimits(cfg: Config, es: seq<Event>, t: TickerId)
    ensures LimitsFor(Run(cfg, es).risk, t) == LimitsAfter(cfg, es, t)
  {
    hide Run;
    RunConfigures(cfg, es);
    TableHoldsLimitsInForce(cfg.defaults, ChangesIn(es), t);
  }

  // ---------------------------------------------------------------- what is tracked

  function CountOf(t: TickerId): Tracked -> int {
    (o: Tracked) => if o.ticker == t then 1 else 0
  }

  function LeavesOf(t: TickerId, side: Side): Tracked -> int {
    (o: Tracked) => if o.ticker == t && o.side == side then o.leaves else 0
  }

  ghost function TrackedCount(s: EngineState, t: TickerId): int {
    Sum(s.pending, CountOf(t))
  }

  /** What is left of a ticker's tracked orders on a side. */
  ghost function TrackedQty(s: EngineState, t: TickerId, side: Side): int {
    Sum(s.pending, LeavesOf(t, side))
  }

  function OpenQty(s: EngineState, t: TickerId, side: Side): Qty {
    if side.Buy? then PositionOf(s, t).openBuyQty else PositionOf(s, t).openSellQty
  }

  lemma TrackedCovers(s: EngineState, id: nat)
    requires id in s.pending
    ensures var o := s.pending[id];
      TrackedCount(s, o.ticker) >= 1 && TrackedQty(s, o.ticker, o.side) >= o.leaves
  {
    hide Sum;
    SumAtLeast(s.pending, id, CountOf(s.pending[id].ticker));
    SumAtLeast(s.pending, id, LeavesOf(s.pending[id].ticker, s.pending[id].side));
  }

  lemma TrackedNonNegative(s: EngineState, t: TickerId, side: Side)
    ensures TrackedCount(s, t) >= 0 && TrackedQty(s, t, side) >= 0
  {
    hide Sum;
    SumNonNegative(s.pending, CountOf(t));
    SumNonNegative(s.pending, LeavesOf(t, side));
  }

  lemma NothingTracked(s: EngineState, t: TickerId)
    requires s.pending == map[]
    ensures TrackedCount(s, t) == TrackedQty(s, t, Buy) == TrackedQty(s, t, Sell) == 0
  {
  }

  /** What becomes of the tracked sums when an order comes, shrinks or goes. */
  lemma TrackedAfterInsert(s: EngineState, s': EngineState, id: nat, o: Tracked, t: TickerId, side: Side)
    requires id !in s.pending && s'.pending == s.pending[id := o]
    ensures TrackedCount(s', t) == TrackedCount(s, t) + CountOf(t)(o)
    ensures TrackedQty(s', t, side) == TrackedQty(s, t, side) + LeavesOf(t, side)(o)
  {
    hide Sum;
    SumInsert(s.pending, id, o, CountOf(t));
    SumInsert(s.pending, id, o, LeavesOf(t, side));
  }

  lemma TrackedAfterUpdate(s: EngineState, s': EngineState, id: nat, o: Tracked, t: TickerId, side: Side)
    requires id in s.pending && s'.pending == s.pending[id := o]
    ensures TrackedCount(s', t) == TrackedCount(s, t) - CountOf(t)(s.pending[id]) + CountOf(t)(o)
    ensures TrackedQty(s', t, side) == TrackedQty(s, t, side) - LeavesOf(t, side)(s.pending[id]) + LeavesOf(t, side)(o)
  {
    hide Sum;
    SumUpdate(s.pending, id, o, CountOf(t));
    SumUpdate(s.pending, id, o, LeavesOf(t, side));
  }

  lemma TrackedAfterRemove(s: EngineState, s': EngineState, id: nat, t: TickerId, side: Side)
    requires id in s.pending && s'.pending == s.pending - {id}
    ensures TrackedCount(s', t) == TrackedCount(s, t) - CountOf(t)(s.pending[id])
    ensures TrackedQty(s', t, side) == TrackedQty(s, t, side) - LeavesOf(t, side)(s.pending[id])
  {
    hide Sum;
    SumRemove(s.pending, id, CountOf(t));
    SumRemove(s.pending, id, LeavesOf(t, side));
  }

  // ---------------------------------------------------------------- what a response does

  /** The position as a side adds to it: up for buys, down for sells. */
  function Facing(position: int, side: Side): int {
    if side.Buy? then position else -position
  }

  /** The count falls by `orders`, the open quantity of the side by `qty`, neither below zero,
      and the position grows by no more than `qty`. */
  predicate Moves(s: EngineState, s': EngineState, t: TickerId, side: Side, orders: int, qty: int) {
    && PositionOf(s', t).ticker == PositionOf(s, t).ticker
    && CountFor(s', t) == Max(0, CountFor(s, t) - orders)
    && OpenQty(s', t, side) == Max(0, OpenQty(s, t, side) - qty)
    && Facing(PositionOf(s', t).position, side) <= Facing(PositionOf(s, t).position, side) + qty
  }

  predicate Ends(s: EngineState, s': EngineState, id: nat, t: TickerId, side: Side) {
    && id in s.pending && s'.pending == s.pending - {id}
    && Moves(s, s', t, side, CountOf(t)(s.pending[id]), LeavesOf(t, side)(s.pending[id]))
  }

  predicate Shrinks(s: EngineState, s': EngineState, id: nat, t: TickerId, side: Side) {
    && id in s.pending && id in s'.pending && s'.pending == s.pending[id := s'.pending[id]]
    && CountOf(t)(s'.pending[id]) == CountOf(t)(s.pending[id])
    && LeavesOf(t, side)(s'.pending[id]) <= LeavesOf(t, side)(s.pending[id])
    && Moves(s, s', t, side, 0, LeavesOf(t, side)(s.pending[id]) - LeavesOf(t, side)(s'.pending[id]))
  }

  lemma TradeEffect(s: EngineState, o: Tracked, qty: nat, price: Price, t: TickerId, side: Side)
    ensures var s' := TradeTracked(s, o.ticker, o.side, qty, price);
      && s'.pending == s.pending
      && Moves(s, s', t, side, 0, if o.ticker == t && o.side == side then qty else 0)
  {
    hide TotalPnl, AvgAfter, RealizedBy, Unrealized;
  }

  lemma FillEffect(s: EngineState, r: ClientResponse, t: TickerId, side: Side)
    requires r.clientOrderId in s.pending && r.tickerId == s.pending[r.clientOrderId].ticker
    requires r.execQty + r.leavesQty == s.pending[r.clientOrderId].leaves
    ensures var id, s' := r.clientOrderId, OnFilled(s, r);
      Ends(s, s', id, t, side) || Shrinks(s, s', id, t, side)
  {
    hide TradeTracked, PositionOf;
    var o := s.pending[r.clientOrderId];
    TradeEffect(s, o, r.execQty, r.price, t, side);
    var traded := TradeTracked(s, o.ticker, o.side, r.execQty, r.price);
    SamePositions(traded, OnFilled(s, r), t);
  }

  lemma SamePositions(s: EngineState, s': EngineState, t: TickerId)
    requires s'.positions == s.positions
    ensures PositionOf(s', t) == PositionOf(s, t)
  {
  }

  /** A response about a tracked order ends it, shrinks it or says nothing new; any other
      well-formed response says nothing new. */
  lemma ResponseEffect(s: EngineState, r: ClientResponse, t: TickerId, side: Side)
    requires WellFormedResponse(s, r)
    ensures var id, s' := r.clientOrderId, Respond(s, r);
      s' == s || Ends(s, s', id, t, side) || Shrinks(s, s', id, t, side)
  {
    hide ResponseTypeOf, OnFilled;
    if ResponseTypeOf(r.msgType) == Some(ResponseType.Filled) {
      if r.clientOrderId in s.pending {
        FillEffect(s, r, t, side);
      } else {
        NoFill(s, r);
      }
    }
  }

  lemma NoFill(s: EngineState, r: ClientResponse)
    requires r.clientOrderId !in s.pending && r.leavesQty != 0
    ensures OnFilled(s, r) == s
  {
  }

  /** So what is tracked falls with the counters. */
  lemma ResponseTracked(s: EngineState, r: ClientResponse, t: TickerId, side: Side)
    returns (orders: nat, qty: nat)
    requires WellFormedResponse(s, r)
    ensures var s' := Respond(s, r);
      && TrackedCount(s', t) == TrackedCount(s, t) - orders && TrackedCount(s', t) >= 0
      && TrackedQty(s', t, side) == TrackedQty(s, t, side) - qty && TrackedQty(s', t, side) >= 0
      && Moves(s, s', t, side, orders, qty)
  {
    hide Sum, Respond, WellFormedResponse;
    var id, s' := r.clientOrderId, Respond(s, r);
    ResponseEffect(s, r, t, side);
    TrackedNonNegative(s', t, side);
    if s' == s {
      orders, qty := 0, 0;
    } else if Ends(s, s', id, t, side) {
      orders, qty := CountOf(t)(s.pending[id]), LeavesOf(t, side)(s.pending[id]);
      TrackedAfterRemove(s, s', id, t, side);
    } else {
      orders, qty := 0, LeavesOf(t, side)(s.pending[id]) - LeavesOf(t, side)(s'.pending[id]);
      TrackedAfterUpdate(s, s', id, s'.pending[id], t, side);
    }
  }

  // ---------------------------------------------------------------- order counts

  /** The count kept for a ticker is the number of its tracked orders. */
  ghost predicate CountAgreesAt(s: EngineState, t: TickerId) {
    PositionOf(s, t).ticker == t && CountFor(s, t) == TrackedCount(s, t)
  }

  predicate CountFits(cfg: Config, s: EngineState, e: Event, t: TickerId) {
    Accepts(cfg, s, e) && e.ticker == t ==> CountFor(s, t) + 1 < WORD32
  }

  lemma ResponseKeepsCount(s: EngineState, r: ClientResponse, t: TickerId)
    requires CountAgreesAt(s, t) && WellFormedResponse(s, r)
    ensures CountAgreesAt(Respond(s, r), t)
  {
    hide TrackedCount, TrackedQty, Respond, WellFormedResponse, PositionOf, CountFor, OpenQty;
    var orders, qty := ResponseTracked(s, r, t, Buy);
  }

  lemma StepKeepsCount(cfg: Config, s: EngineState, e: Event, t: TickerId)
    requires CountAgreesAt(s, t) && WellFormed(s, e) && CountFits(cfg, s, e, t)
    ensures CountAgreesAt(Apply(cfg, s, e), t)
  {
    hide Sum, Respond, CheckRisk, UpdateTypeOf, TotalPnl, MarketData.BboStep, MarketData.MidPrice, WellFormedResponse;
    match e {
      case Submitting(tk, side, price, qty, callback) =>
        var o := Tracked(tk, side, price, qty, qty);
        TrackedAfterInsert(s, Track(s, IdFor(s, callback), o), IdFor(s, callback), o, t, side);
      case Responding(r) => ResponseKeepsCount(s, r, t);
      case MarketUpdated(u) =>
      case Quoted(tk, b) =>
      case Resetting => NothingTracked(Reset(s), t);
      case LimitsChanged(_) =>
    }
  }

  lemma StartsCounted(cfg: Config, t: TickerId)
    ensures CountAgreesAt(NewEngine(cfg), t)
  {
    NothingTracked(NewEngine(cfg), t);
  }

  /** With risk checks on, over every well-formed run, resets included, each ticker's open
      order count is its number of tracked orders: the limit keeps it from wrapping. */
  lemma {:induction false} CountsAgree(cfg: Config, es: seq<Event>, t: TickerId)
    requires cfg.enableRiskChecks && WellFormedRun(cfg, es)
    ensures CountAgreesAt(Run(cfg, es), t)
  {
    hide Apply, WellFormed, CountAgreesAt;
    if es == [] {
      StartsCounted(cfg, t);
    } else {
      var s, e := Run(cfg, es[..|es| - 1]), es[|es| - 1];
      CountsAgree(cfg, es[..|es| - 1], t);
      ChecksLimitCount(cfg, s, e, t);
      StepKeepsCount(cfg, s, e, t);
    }
  }

  lemma ChecksLimitCount(cfg: Config, s: EngineState, e: Event, t: TickerId)
    requires cfg.enableRiskChecks
    ensures CountFits(cfg, s, e, t)
  {
  }

  // ---------------------------------------------------------------- open quantities

  /** The open quantities exceed what is tracked by the given amounts. */
  ghost predicate SlackAt(s: EngineState, t: TickerId, buys: nat, sells: nat) {
    OpenQty(s, t, Buy) == TrackedQty(s, t, Buy) + buys && OpenQty(s, t, Sell) == TrackedQty(s, t, Sell) + sells
  }

  /** The counters kept for a ticker are those of its tracked orders. */
  ghost predicate AgreesAt(s: EngineState, t: TickerId) {
    CountAgreesAt(s, t) && SlackAt(s, t, 0, 0)
  }

  /** The open quantities cover at least what is tracked. */
  ghost predicate CoveredAt(s: EngineState, t: TickerId) {
    OpenQty(s, t, Buy) >= TrackedQty(s, t, Buy) && OpenQty(s, t, Sell) >= TrackedQty(s, t, Sell)
  }

  /** If the event adds an order to the ticker, its words do not wrap. */
  predicate FitsAt(cfg: Config, s: EngineState, e: Event, t: TickerId) {
    CountFits(cfg, s, e, t) &&
    (Accepts(cfg, s, e) && e.ticker == t ==> OpenQty(s, t, e.side) + e.qty < WORD32)
  }

  ghost predicate FittingRun(cfg: Config, es: seq<Event>, t: TickerId) {
    es == [] ||
    (FittingRun(cfg, es[..|es| - 1], t) && FitsAt(cfg, Run(cfg, es[..|es| - 1]), es[|es| - 1], t))
  }

  /** Taking a tracked order's quantity off the open quantity, and the order off the count,
      never saturates. */
  lemma CountersCover(s: EngineState, id: nat)
    requires id in s.pending && CountAgreesAt(s, s.pending[id].ticker) && CoveredAt(s, s.pending[id].ticker)
    ensures var o := s.pending[id];
      CountFor(s, o.ticker) >= 1 && OpenQty(s, o.ticker, o.side) >= o.leaves
  {
    hide Sum;
    TrackedCovers(s, id);
  }

  lemma ResponseKeepsSlack(s: EngineState, r: ClientResponse, t: TickerId, buys: nat, sells: nat)
    requires SlackAt(s, t, buys, sells) && WellFormedResponse(s, r)
    ensures SlackAt(Respond(s, r), t, buys, sells)
  {
    hide TrackedCount, TrackedQty, Respond, WellFormedResponse, PositionOf, CountFor, OpenQty;
    var orders, bought := ResponseTracked(s, r, t, Buy);
    var orders', sold := ResponseTracked(s, r, t, Sell);
  }

  lemma SubmitSlack(cfg: Config, s: EngineState, e: Event, t: TickerId, buys: nat, sells: nat)
    requires SlackAt(s, t, buys, sells) && WellFormed(s, e) && e.Submitting?
    ensures SlackAt(Apply(cfg, s, e), t, buys, sells) <==>
      (Accepts(cfg, s, e) && e.ticker == t ==> OpenQty(s, t, e.side) + e.qty < WORD32)
  {
    hide Sum, CheckRisk;
    var o, id := Tracked(e.ticker, e.side, e.price, e.qty, e.qty), IdFor(s, e.callback);
    TrackedAfterInsert(s, Track(s, id, o), id, o, t, Buy);
    TrackedAfterInsert(s, Track(s, id, o), id, o, t, Sell);
  }

  lemma StepKeepsSlack(cfg: Config, s: EngineState, e: Event, t: TickerId, buys: nat, sells: nat)
    requires SlackAt(s, t, buys, sells) && WellFormed(s, e) && !e.Resetting? && FitsAt(cfg, s, e, t)
    ensures SlackAt(Apply(cfg, s, e), t, buys, sells)
  {
    hide Sum, Respond, CheckRisk, UpdateTypeOf, TotalPnl, MarketData.BboStep, MarketData.MidPrice, WellFormedResponse;
    match e {
      case Submitting(_, _, _, _, _) => SubmitSlack(cfg, s, e, t, buys, sells);
      case Responding(r) => ResponseKeepsSlack(s, r, t, buys, sells);
      case MarketUpdated(u) =>
      case Quoted(tk, b) =>
      case LimitsChanged(_) =>
    }
  }

  /** From agreement, an event other than a reset keeps it exactly when no word wraps. */
  lemma StepAgreesIff(cfg: Config, s: EngineState, e: Event, t: TickerId)
    requires AgreesAt(s, t) && WellFormed(s, e) && !e.Resetting?
    ensures AgreesAt(Apply(cfg, s, e), t) <==> FitsAt(cfg, s, e, t)
  {
    hide CheckRisk, SlackAt, WellFormedResponse;
    if FitsAt(cfg, s, e, t) {
      StepKeepsCount(cfg, s, e, t);
      StepKeepsSlack(cfg, s, e, t, 0, 0);
    } else {
      SubmitSlack(cfg, s, e, t, 0, 0);
      if CountFor(s, t) + 1 == WORD32 {
        CountWraps(cfg, s, e, t);
      }
    }
  }

  lemma CountWraps(cfg: Config, s: EngineState, e: Event, t: TickerId)
    requires WellFormed(s, e) && Accepts(cfg, s, e) && e.ticker == t && CountFor(s, t) + 1 == WORD32
    ensures !CountAgreesAt(Apply(cfg, s, e), t)
  {
    hide Sum, CheckRisk;
    var o, id := Tracked(e.ticker, e.side, e.price, e.qty, e.qty), IdFor(s, e.callback);
    TrackedAfterInsert(s, Track(s, id, o), id, o, t, Buy);
    TrackedNonNegative(s, t, Buy);
  }

  lemma StartsAgreed(cfg: Config, t: TickerId)
    ensures AgreesAt(NewEngine(cfg), t)
  {
    NothingTracked(NewEngine(cfg), t);
  }

  /** Over every well-formed run without reset in which the ticker's words do not wrap, its
      open order count is its number of tracked orders and its open quantities are the sums
      of their leaves. */
  lemma {:induction false} CountersAgree(cfg: Config, es: seq<Event>, t: TickerId)
    requires WellFormedRun(cfg, es) && NoReset(es) && FittingRun(cfg, es, t)
    ensures AgreesAt(Run(cfg, es), t)
  {
    hide AgreesAt, Apply, WellFormed, FitsAt;
    if es == [] {
      StartsAgreed(cfg, t);
    } else {
      CountersAgree(cfg, es[..|es| - 1], t);
      StepAgreesIff(cfg, Run(cfg, es[..|es| - 1]), es[|es| - 1], t);
    }
  }

  lemma StepKeepsCovered(cfg: Config, s: EngineState, e: Event, t: TickerId)
    requires CoveredAt(s, t) && WellFormed(s, e) && FitsAt(cfg, s, e, t)
    ensures CoveredAt(Apply(cfg, s, e), t)
  {
    hide TrackedQty, FitsAt, WellFormed;
    if e.Resetting? {
      NothingTracked(Reset(s), t);
    } else {
      hide Apply;
      var buys, sells := OpenQty(s, t, Buy) - TrackedQty(s, t, Buy), OpenQty(s, t, Sell) - TrackedQty(s, t, Sell);
      StepKeepsSlack(cfg, s, e, t, buys, sells);
    }
  }

  /** Resets included, the open quantities never fall below what is tracked. */
  lemma {:induction false} OpenQuantitiesCover(cfg: Config, es: seq<Event>, t: TickerId)
    requires WellFormedRun(cfg, es) && FittingRun(cfg, es, t)
    ensures CoveredAt(Run(cfg, es), t)
  {
    hide CoveredAt, Apply, WellFormed, FitsAt, AgreesAt;
    if es == [] {
      StartsCovered(cfg, t);
    } else {
      OpenQuantitiesCover(cfg, es[..|es| - 1], t);
      StepKeepsCovered(cfg, Run(cfg, es[..|es| - 1]), es[|es| - 1], t);
    }
  }

  lemma StartsCovered(cfg: Config, t: TickerId)
    ensures CoveredAt(NewEngine(cfg), t)
  {
    NothingTracked(NewEngine(cfg), t);
  }

  /** Why a final fill must name a tracked order: otherwise the count of its ticker drops
      all the same, and agrees with the tracked orders only if the ticker has none. */
  lemma UntrackedFinalFill(s: EngineState, r: ClientResponse)
    requires AgreesAt(s, r.tickerId) && r.clientOrderId !in s.pending && IsFinalFill(r)
    ensures AgreesAt(Respond(s, r), r.tickerId) <==> forall id | id in s.pending :: s.pending[id].ticker != r.tickerId
  {
    hide Sum;
    var t := r.tickerId;
    assert s.pending - {r.clientOrderId} == s.pending;
    if id :| id in s.pending && s.pending[id].ticker == t {
      TrackedCovers(s, id);
    } else {
      SumScaledBound(s.pending, CountOf(t), CountOf(t), 0);
      SumNonNegative(s.pending, CountOf(t));
    }
  }

  /** Why the open quantities are compared in runs without `reset`: it keeps all tickers in
      agreement exactly when nothing was left of any tracked order. */
  lemma ResetAgreesIff(s: EngineState)
    requires forall t: TickerId :: AgreesAt(s, t)
    ensures (forall t: TickerId :: AgreesAt(Reset(s), t)) <==> forall id | id in s.pending :: s.pending[id].leaves == 0
  {
    hide Sum;
    if forall t: TickerId :: AgreesAt(Reset(s), t) {
      forall id | id in s.pending ensures s.pending[id].leaves == 0 {
        var t := s.pending[id].ticker;
        assert AgreesAt(s, t) && AgreesAt(Reset(s), t);
        TrackedCovers(s, id);
        NothingTracked(Reset(s), t);
      }
    }
    if forall id | id in s.pending :: s.pending[id].leaves == 0 {
      forall t: TickerId ensures AgreesAt(Reset(s), t) {
        assert AgreesAt(s, t);
        NothingTracked(Reset(s), t);
        NoLeaves(s, t, Buy);
        NoLeaves(s, t, Sell);
      }
    }
  }

  lemma NoLeaves(s: EngineState, t: TickerId, side: Side)
    requires forall id | id in s.pending :: s.pending[id].leaves == 0
    ensures TrackedQty(s, t, side) == 0
  {
    hide Sum;
    SumScaledBound(s.pending, LeavesOf(t, side), LeavesOf(t, side), 0);
    SumNonNegative(s.pending, LeavesOf(t, side));
  }

  lemma StepKeepsIdsBelow(cfg: Config, s: EngineState, e: Event)
    requires e.Submitting? ==> e.callback.None?
    requires forall id | id in s.pending :: id <= s.submitted
    ensures var s' := Apply(cfg, s, e);
      forall id | id in s'.pending :: id <= s'.submitted
  {
    hide ResponseTypeOf, CheckRisk, Fill, TotalPnl, UpdateTypeOf, MarketData.BboStep, MarketData.MidPrice, Mark;
  }

  /** Without a callback the running number serves: it is never in use. */
  lemma {:induction false} RunningNumbersAreFresh(cfg: Config, es: seq<Event>)
    requires forall i | 0 <= i < |es| && es[i].Submitting? :: es[i].callback.None?
    ensures forall id | id in Run(cfg, es).pending :: id <= Run(cfg, es).submitted
    ensures IdFor(Run(cfg, es), None) !in Run(cfg, es).pending
  {
    hide Apply;
    if es == [] {
    } else {
      RunningNumbersAreFresh(cfg, es[..|es| - 1]);
      StepKeepsIdsBelow(cfg, Run(cfg, es[..|es| - 1]), es[|es| - 1]);
    }
  }

  // ---------------------------------------------------------------- the cached total

  ghost predicate PnlIsFresh(s: EngineState) {
    s.totalPnl == TotalPnl(s.positions)
  }

  lemma OpenQuantitiesHaveNoPnl(m: Positions, t: TickerId, p: PositionState)
    requires Pnl(p) == Pnl(Lookup(m, t))
    ensures TotalPnl(m[t := p]) == TotalPnl(m)
  {
    TotalPnlUpdate(m, t, p);
  }

  lemma RemoveOpenAfter(m: Positions, t: TickerId, p: PositionState, side: Side, qty: nat)
    ensures TotalPnl(m[t := RemoveOpen(p, side, qty)]) == TotalPnl(m[t := p])
  {
    hide TotalPnl;
    var m1 := m[t := p];
    OpenQuantitiesHaveNoPnl(m1, t, RemoveOpen(p, side, qty));
    assert m1[t := RemoveOpen(p, side, qty)] == m[t := RemoveOpen(p, side, qty)];
  }

  lemma ResponseKeepsPnlFresh(s: EngineState, r: ClientResponse)
    requires PnlIsFresh(s)
    ensures PnlIsFresh(Respond(s, r))
  {
    hide TotalPnl, Fill, ResponseTypeOf;
    var id, t := r.clientOrderId, r.tickerId;
    if id in s.pending {
      var o := s.pending[id];
      RemoveOpenAfter(s.positions, t, Fill(PositionOf(s, t), o.side, r.execQty, r.price), o.side, r.execQty);
      OpenQuantitiesHaveNoPnl(s.positions, t, RemoveOpen(PositionOf(s, t), o.side, o.leaves));
    }
  }

  lemma StepKeepsPnlFresh(cfg: Config, s: EngineState, e: Event)
    requires PnlIsFresh(s)
    ensures PnlIsFresh(Apply(cfg, s, e))
  {
    hide TotalPnl, Respond, CheckRisk, UpdateTypeOf, MarketData.BboStep, MarketData.MidPrice, Mark;
    match e {
      case Submitting(t, side, price, qty, callback) =>
        OpenQuantitiesHaveNoPnl(s.positions, t, AddOpen(PositionOf(s, t), side, qty));
      case Responding(r) => ResponseKeepsPnlFresh(s, r);
      case MarketUpdated(u) =>
      case Quoted(t, b) =>
      case Resetting =>
      case LimitsChanged(_) =>
    }
  }

  /** In every run, resets included, the cached total is the sum of realized and unrealized profit
      over all tickers, although submissions and responses change positions behind it. */
  lemma {:induction false} CachedPnlIsFresh(cfg: Config, es: seq<Event>)
    ensures PnlIsFresh(Run(cfg, es))
  {
    hide Apply, PnlIsFresh;
    if es == [] {
      NoPnl(cfg);
    } else {
      CachedPnlIsFresh(cfg, es[..|es| - 1]);
      StepKeepsPnlFresh(cfg, Run(cfg, es[..|es| - 1]), es[|es| - 1]);
    }
  }

  lemma NoPnl(cfg: Config)
    ensures PnlIsFresh(NewEngine(cfg))
  {
  }

  // ---------------------------------------------------------------- market data

  /** The market updates a run has seen since it last was reset. */
  function UpdatesIn(es: seq<Event>): seq<MarketUpdate> {
    if es == [] || es[|es| - 1].Resetting? then []
    else UpdatesIn(es[..|es| - 1]) + if es[|es| - 1].MarketUpdated? then [es[|es| - 1].update] else []
  }

  lemma BboUntouched(cfg: Config, s: EngineState, e: Event)
    requires !e.MarketUpdated? && !e.Quoted? && !e.Resetting?
    ensures Apply(cfg, s, e).bbo == s.bbo
  {
    hide ResponseTypeOf, CheckRisk, Fill, TotalPnl;
  }

  lemma BboFollows(s: EngineState, m: MarketData.BboMap, u: MarketUpdate, t: TickerId)
    requires forall k: TickerId :: MarketData.Lookup(s.bbo, k) == MarketData.Lookup(m, k)
    ensures MarketData.Lookup(OnMarket(s, u).bbo, t) == MarketData.Lookup(MarketData.ReceiverStep(m, u), t)
  {
    hide TotalPnl, Mark;
    assert MarketData.Lookup(s.bbo, u.tickerId) == MarketData.Lookup(m, u.tickerId);
    assert MarketData.Lookup(s.bbo, t) == MarketData.Lookup(m, t);
  }

  /** The trade engine and a market data receiver started when the engine was last reset,
      written separately, see the same best bid and offer of every ticker, as long as
      `update_bbo` is not used to set one from elsewhere. */
  lemma {:induction false} BboViewsAgree(cfg: Config, es: seq<Event>)
    requires forall i | 0 <= i < |es| :: !es[i].Quoted?
    ensures forall t: TickerId ::
      MarketData.Lookup(Run(cfg, es).bbo, t) == MarketData.Lookup(MarketData.Received(UpdatesIn(es)), t)
  {
    hide OnMarket, MarketData.ReceiverStep, MarketData.Lookup, Submit, Respond;
    if es == [] {
    } else {
      var before, e := es[..|es| - 1], es[|es| - 1];
      BboViewsAgree(cfg, before);
      if e.MarketUpdated? {
        var us := UpdatesIn(before);
        assert (us + [e.update])[..|us|] == us;
        forall t: TickerId
          ensures MarketData.Lookup(Run(cfg, es).bbo, t) == MarketData.Lookup(MarketData.Received(UpdatesIn(es)), t)
        {
          BboFollows(Run(cfg, before), MarketData.Received(us), e.update, t);
        }
      } else if !e.Resetting? {
        BboUntouched(cfg, Run(cfg, before), e);
        assert UpdatesIn(before) + [] == UpdatesIn(before);
      }
    }
  }
}
