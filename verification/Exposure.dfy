/** How far the risk checks bound a position. Orders that reduce risk skip the position
    limit, and open quantities are 32-bit words, so the limit itself is not always kept.
    This module proves the bounds that are. Limits may change during a run: a bound is stated
    for any limits l that those in force, as read off the run's own events, never pass. */
module Exposure {
  import opened Types
  import opened Arithmetic
  import opened MapSum
  import opened Protocol
  import opened Position
  import opened Risk
  import opened TradeEngine
  import opened TradeRuns
  import MarketData

  predicate AtMost(a: RiskLimits, b: RiskLimits) {
    && a.maxOrderQty <= b.maxOrderQty && a.maxPosition <= b.maxPosition
    && a.maxLoss <= b.maxLoss && a.maxOpenOrders <= b.maxOpenOrders
  }

  /** Limits may change during a run; none in force when an order of the ticker is submitted
      is above these. */
  predicate Capped(cfg: Config, es: seq<Event>, t: TickerId, l: RiskLimits) {
    es == [] ||
    var before, e := es[..|es| - 1], es[|es| - 1];
    Capped(cfg, before, t, l) && (e.Submitting? && e.ticker == t ==> AtMost(LimitsAfter(cfg, before, t), l))
  }

  /** The same of the limits that the engine's state holds. */
  predicate CappedAt(s: EngineState, e: Event, t: TickerId, l: RiskLimits) {
    e.Submitting? && e.ticker == t ==> AtMost(LimitsFor(s.risk, t), l)
  }

  lemma CappedStep(cfg: Config, es: seq<Event>, t: TickerId, l: RiskLimits)
    requires es != [] && Capped(cfg, es, t, l)
    ensures Capped(cfg, es[..|es| - 1], t, l) && CappedAt(Run(cfg, es[..|es| - 1]), es[|es| - 1], t, l)
  {
    hide Run;
    EngineLimits(cfg, es[..|es| - 1], t);
  }

  /** All the orders a ticker may have open, at their largest. */
  function OpenCapacity(l: RiskLimits): nat {
    l.maxOpenOrders * l.maxOrderQty
  }

  function ExposureLimit(l: RiskLimits): int {
    Max(Max(0, l.maxPosition), OpenCapacity(l) - 1)
  }

  /** Even if all tracked orders on either side were filled, the position would be within
      the bound. */
  ghost predicate Within(s: EngineState, t: TickerId, bound: int) {
    forall side: Side :: Facing(PositionOf(s, t).position, side) + TrackedQty(s, t, side) <= bound
  }

  ghost predicate OrdersWithin(s: EngineState, t: TickerId, q: Qty) {
    forall id | id in s.pending && s.pending[id].ticker == t :: s.pending[id].leaves <= q
  }

  /** The event is a submission that gets through without the position limit. */
  predicate Exempt(cfg: Config, s: EngineState, e: Event) {
    Accepts(cfg, s, e) && RiskReducing(PositionOf(s, e.ticker), e.side)
  }

  // ---------------------------------------------------------------- one event

  /** What is tracked of a ticker is at most its order count times the largest order. */
  lemma TrackedWithinCount(s: EngineState, t: TickerId, side: Side, q: Qty)
    requires OrdersWithin(s, t, q)
    ensures TrackedQty(s, t, side) <= q * TrackedCount(s, t)
  {
    hide Sum;
    forall id | id in s.pending
      ensures LeavesOf(t, side)(s.pending[id]) <= q * CountOf(t)(s.pending[id])
    {
    }
    SumScaledBound(s.pending, LeavesOf(t, side), CountOf(t), q);
  }

  /** What the checks have established of an order they let through. */
  lemma AcceptedOrder(cfg: Config, s: EngineState, e: Event, l: RiskLimits)
    requires cfg.enableRiskChecks && Accepts(cfg, s, e) && CappedAt(s, e, e.ticker, l)
    requires CountAgreesAt(s, e.ticker) && OrdersWithin(s, e.ticker, l.maxOrderQty)
    ensures var t, side := e.ticker, e.side;
      var facing := Facing(PositionOf(s, t).position, side);
      && e.qty <= l.maxOrderQty
      && TrackedQty(s, t, side) + e.qty <= OpenCapacity(l)
      && if Exempt(cfg, s, e) then facing <= -1
         else facing >= 0 && facing + OpenQty(s, t, side) + e.qty <= l.maxPosition
  {
    hide Sum;
    var count := CountFor(s, e.ticker);
    TrackedWithinCount(s, e.ticker, e.side, l.maxOrderQty);
    MulLe(count + 1, l.maxOpenOrders, l.maxOrderQty);
    assert l.maxOrderQty * count + l.maxOrderQty == (count + 1) * l.maxOrderQty;
  }

  lemma ResponseKeepsWithin(s: EngineState, r: ClientResponse, t: TickerId, bound: int)
    requires WellFormedResponse(s, r) && Within(s, t, bound)
    ensures Within(Respond(s, r), t, bound)
  {
    hide TrackedCount, TrackedQty, Respond, WellFormedResponse, PositionOf, CountFor, OpenQty, Facing;
    forall side: Side
      ensures Facing(PositionOf(Respond(s, r), t).position, side) + TrackedQty(Respond(s, r), t, side) <= bound
    {
      assert Facing(PositionOf(s, t).position, side) + TrackedQty(s, t, side) <= bound;
      var orders, qty := ResponseTracked(s, r, t, side);
    }
  }

  lemma SubmitKeepsWithin(cfg: Config, s: EngineState, e: Event, t: TickerId, bound: int)
    requires e.Submitting? && WellFormed(s, e) && Within(s, t, bound)
    requires Accepts(cfg, s, e) && e.ticker == t ==>
      Facing(PositionOf(s, t).position, e.side) + TrackedQty(s, t, e.side) + e.qty <= bound
    ensures Within(Apply(cfg, s, e), t, bound)
  {
    hide Sum, CheckRisk;
    var o, id := Tracked(e.ticker, e.side, e.price, e.qty, e.qty), IdFor(s, e.callback);
    TrackedAfterInsert(s, Track(s, id, o), id, o, t, Buy);
    TrackedAfterInsert(s, Track(s, id, o), id, o, t, Sell);
  }

  lemma SameOrdersSamePosition(s: EngineState, s': EngineState, t: TickerId, bound: int)
    requires s'.pending == s.pending && PositionOf(s', t).position == PositionOf(s, t).position
    requires Within(s, t, bound)
    ensures Within(s', t, bound)
  {
    hide Sum;
    forall side: Side ensures Facing(PositionOf(s', t).position, side) + TrackedQty(s', t, side) <= bound {
      assert Facing(PositionOf(s, t).position, side) + TrackedQty(s, t, side) <= bound;
    }
  }

  /** Only an accepted order of the ticker can raise its exposure. */
  lemma StepKeepsWithin(cfg: Config, s: EngineState, e: Event, t: TickerId, bound: int)
    requires WellFormed(s, e) && Within(s, t, bound)
    requires Accepts(cfg, s, e) && e.ticker == t ==>
      Facing(PositionOf(s, t).position, e.side) + TrackedQty(s, t, e.side) + e.qty <= bound
    ensures Within(Apply(cfg, s, e), t, bound)
  {
    hide Sum, Respond, CheckRisk, UpdateTypeOf, TotalPnl, MarketData.BboStep, MarketData.MidPrice, WellFormedResponse;
    match e {
      case Submitting(_, _, _, _, _) => SubmitKeepsWithin(cfg, s, e, t, bound);
      case Responding(r) => ResponseKeepsWithin(s, r, t, bound);
      case MarketUpdated(u) => SameOrdersSamePosition(s, OnMarket(s, u), t, bound);
      case Quoted(tk, b) => SameOrdersSamePosition(s, OnQuote(s, tk, b), t, bound);
      case Resetting =>
        NothingTracked(Reset(s), t);
        TrackedNonNegative(s, t, Buy);
        TrackedNonNegative(s, t, Sell);
      case LimitsChanged(c) => SameOrdersSamePosition(s, s.(risk := Change(s.risk, c)), t, bound);
    }
  }

  lemma StepKeepsOrdersWithin(cfg: Config, s: EngineState, e: Event, t: TickerId, l: RiskLimits)
    requires cfg.enableRiskChecks && WellFormed(s, e) && OrdersWithin(s, t, l.maxOrderQty)
    requires PositionOf(s, t).ticker == t && CappedAt(s, e, t, l)
    ensures OrdersWithin(Apply(cfg, s, e), t, l.maxOrderQty)
  {
    hide ResponseTypeOf, UpdateTypeOf, TotalPnl, Sum, MarketData.BboStep, MarketData.MidPrice, Fill, Mark;
  }

  // ---------------------------------------------------------------- whole runs

  lemma {:induction false} OrdersStayWithin(cfg: Config, es: seq<Event>, t: TickerId, l: RiskLimits)
    requires cfg.enableRiskChecks && WellFormedRun(cfg, es) && Capped(cfg, es, t, l)
    ensures OrdersWithin(Run(cfg, es), t, l.maxOrderQty)
  {
    hide Apply, TrackedCount, WellFormed, CappedAt, Capped;
    if es == [] {
      assert NewEngine(cfg).pending == map[];
    } else {
      var before := es[..|es| - 1];
      CappedStep(cfg, es, t, l);
      OrdersStayWithin(cfg, before, t, l);
      CountsAgree(cfg, before, t);
      StepKeepsOrdersWithin(cfg, Run(cfg, before), es[|es| - 1], t, l);
    }
  }

  /** No order of the ticker got through on the exemption. */
  ghost predicate NeverExempt(cfg: Config, es: seq<Event>, t: TickerId) {
    es == [] ||
    (NeverExempt(cfg, es[..|es| - 1], t) &&
     !(Exempt(cfg, Run(cfg, es[..|es| - 1]), es[|es| - 1]) && es[|es| - 1].ticker == t))
  }

  lemma StartsWithin(cfg: Config, t: TickerId, bound: int)
    requires bound >= 0
    ensures Within(NewEngine(cfg), t, bound)
  {
    NothingTracked(NewEngine(cfg), t);
  }

  lemma {:induction false} StaysWithin(cfg: Config, es: seq<Event>, t: TickerId, l: RiskLimits, bound: int)
    requires cfg.enableRiskChecks && WellFormedRun(cfg, es) && Capped(cfg, es, t, l) && FittingRun(cfg, es, t)
    requires bound >= 0 && bound >= l.maxPosition
    requires NeverExempt(cfg, es, t) || bound >= OpenCapacity(l) - 1
    ensures Within(Run(cfg, es), t, bound)
  {
    hide Apply, WellFormed, Capped, CappedAt, OrdersWithin, CountAgreesAt, Exempt, OpenCapacity, Within, FitsAt,
         TrackedQty, CheckRisk;
    if es == [] {
      StartsWithin(cfg, t, bound);
    } else {
      var before, e := es[..|es| - 1], es[|es| - 1];
      CappedStep(cfg, es, t, l);
      StaysWithin(cfg, before, t, l, bound);
      CountsAgree(cfg, before, t);
      OrdersStayWithin(cfg, before, t, l);
      OpenQuantitiesCover(cfg, before, t);
      if Accepts(cfg, Run(cfg, before), e) && e.ticker == t {
        AcceptedOrder(cfg, Run(cfg, before), e, l);
      }
      StepKeepsWithin(cfg, Run(cfg, before), e, t, bound);
    }
  }

  /** The bound over every well-formed run from flat, resets included, in which the open
      quantities of the ticker do not wrap: position plus tracked buys, and the mirror image,
      stay within max_position or one less than all the open orders allowed, whichever is
      larger; hence so does the position. */
  lemma PositionBound(cfg: Config, es: seq<Event>, t: TickerId, l: RiskLimits)
    requires cfg.enableRiskChecks && WellFormedRun(cfg, es) && Capped(cfg, es, t, l) && FittingRun(cfg, es, t)
    ensures var s, limit := Run(cfg, es), ExposureLimit(l);
      && PositionOf(s, t).position + TrackedQty(s, t, Buy) <= limit
      && -PositionOf(s, t).position + TrackedQty(s, t, Sell) <= limit
      && Abs(PositionOf(s, t).position) <= limit
  {
    hide Run, WellFormedRun, Capped, OpenCapacity, TrackedQty, FittingRun;
    var s, limit := Run(cfg, es), ExposureLimit(l);
    StaysWithin(cfg, es, t, l, limit);
    WithinMeans(s, t, limit);
  }

  lemma WithinMeans(s: EngineState, t: TickerId, bound: int)
    requires Within(s, t, bound)
    ensures var p := PositionOf(s, t).position;
      p + TrackedQty(s, t, Buy) <= bound && -p + TrackedQty(s, t, Sell) <= bound && Abs(p) <= bound
  {
    TrackedNonNegative(s, t, Buy);
    TrackedNonNegative(s, t, Sell);
    hide TrackedQty;
    var p := PositionOf(s, t).position;
    assert Facing(p, Buy) + TrackedQty(s, t, Buy) <= bound && Facing(p, Sell) + TrackedQty(s, t, Sell) <= bound;
  }

  // ---------------------------------------------------------------- when words do not wrap

  /** Without reset, limits whose product fits a word keep every word of the ticker from
      wrapping. */
  lemma {:induction false} LimitsFit(cfg: Config, es: seq<Event>, t: TickerId, l: RiskLimits)
    requires cfg.enableRiskChecks && WellFormedRun(cfg, es) && Capped(cfg, es, t, l) && NoReset(es)
    requires OpenCapacity(l) < WORD32
    ensures FittingRun(cfg, es, t)
  {
    hide Apply, WellFormed, Capped, CappedAt, OrdersWithin, CountAgreesAt, OpenCapacity, TrackedQty, OpenQty, CheckRisk,
         CountFits, Exempt;
    if es == [] {
    } else {
      var before, e := es[..|es| - 1], es[|es| - 1];
      CappedStep(cfg, es, t, l);
      var s := Run(cfg, before);
      LimitsFit(cfg, before, t, l);
      CountersAgree(cfg, before, t);
      OrdersStayWithin(cfg, before, t, l);
      ChecksLimitCount(cfg, s, e, t);
      if Accepts(cfg, s, e) && e.ticker == t {
        AcceptedOrder(cfg, s, e, l);
      }
    }
  }

  /** So do runs without exemption under a position limit that fits a word, resets included. */
  lemma {:induction false} PositionLimitFits(cfg: Config, es: seq<Event>, t: TickerId, l: RiskLimits)
    requires cfg.enableRiskChecks && WellFormedRun(cfg, es) && Capped(cfg, es, t, l) && NeverExempt(cfg, es, t)
    requires l.maxPosition < WORD32
    ensures FittingRun(cfg, es, t)
  {
    hide Apply, WellFormed, Capped, CappedAt, OrdersWithin, CountAgreesAt, OpenCapacity, TrackedQty, OpenQty, CountFits,
         CheckRisk, RiskReducing;
    if es == [] {
    } else {
      var before, e := es[..|es| - 1], es[|es| - 1];
      CappedStep(cfg, es, t, l);
      var s := Run(cfg, before);
      PositionLimitFits(cfg, before, t, l);
      CountsAgree(cfg, before, t);
      OrdersStayWithin(cfg, before, t, l);
      ChecksLimitCount(cfg, s, e, t);
      if Accepts(cfg, s, e) && e.ticker == t {
        AcceptedOrder(cfg, s, e, l);
      }
    }
  }

  /** Over every well-formed run from flat without reset, under limits whose product fits a
      word, the same bound holds of position plus open buys and of the mirror image. */
  lemma ExposureBound(cfg: Config, es: seq<Event>, t: TickerId, l: RiskLimits)
    requires cfg.enableRiskChecks && WellFormedRun(cfg, es) && Capped(cfg, es, t, l) && NoReset(es)
    requires OpenCapacity(l) < WORD32
    ensures var p, limit := PositionOf(Run(cfg, es), t), ExposureLimit(l);
      && p.position + p.openBuyQty <= limit && -p.position + p.openSellQty <= limit
      && Abs(p.position) <= limit
  {
    hide Run, WellFormedRun, Capped, OpenCapacity, TrackedQty, CountAgreesAt, FittingRun;
    LimitsFit(cfg, es, t, l);
    PositionBound(cfg, es, t, l);
    CountersAgree(cfg, es, t);
  }

  /** Runs that never use the exemption keep the position limit, if it or the product of the
      order limits fits a word (the latter in runs without reset). */
  lemma LimitHoldsWithoutExemption(cfg: Config, es: seq<Event>, t: TickerId, l: RiskLimits)
    requires cfg.enableRiskChecks && WellFormedRun(cfg, es) && Capped(cfg, es, t, l) && NeverExempt(cfg, es, t)
    requires l.maxPosition < WORD32 || (NoReset(es) && OpenCapacity(l) < WORD32)
    ensures Abs(PositionOf(Run(cfg, es), t).position) <= Max(0, l.maxPosition)
  {
    hide Run, WellFormedRun, Capped, NeverExempt, FittingRun, OpenCapacity, TrackedQty, NoReset, Within;
    if l.maxPosition < WORD32 {
      PositionLimitFits(cfg, es, t, l);
    } else {
      LimitsFit(cfg, es, t, l);
    }
    var bound := Max(0, l.maxPosition);
    StaysWithin(cfg, es, t, l, bound);
    WithinMeans(Run(cfg, es), t, bound);
  }

  /** The counters the source keeps in 32-bit words: without reset the count never passes its
      limit, and each open quantity is at most all the open orders allowed. */
  lemma CountersBounded(cfg: Config, es: seq<Event>, t: TickerId, l: RiskLimits)
    requires cfg.enableRiskChecks && WellFormedRun(cfg, es) && Capped(cfg, es, t, l) && NoReset(es)
    requires OpenCapacity(l) < WORD32
    ensures var s := Run(cfg, es);
      && CountFor(s, t) <= l.maxOpenOrders
      && PositionOf(s, t).openBuyQty <= OpenCapacity(l) && PositionOf(s, t).openSellQty <= OpenCapacity(l)
  {
    hide Run, WellFormedRun, Capped, OrdersWithin, TrackedQty, TrackedCount, FittingRun;
    CountBounded(cfg, es, t, l);
    LimitsFit(cfg, es, t, l);
    CountersAgree(cfg, es, t);
    OrdersStayWithin(cfg, es, t, l);
    var s := Run(cfg, es);
    TrackedWithinCount(s, t, Buy, l.maxOrderQty);
    TrackedWithinCount(s, t, Sell, l.maxOrderQty);
    MulLe(CountFor(s, t), l.maxOpenOrders, l.maxOrderQty);
  }

  lemma StepKeepsCountBounded(cfg: Config, s: EngineState, e: Event, t: TickerId, l: RiskLimits)
    requires CappedAt(s, e, t, l)
    requires cfg.enableRiskChecks && PositionOf(s, t).ticker == t && CountFor(s, t) <= l.maxOpenOrders
    ensures CountFor(Apply(cfg, s, e), t) <= l.maxOpenOrders
  {
    hide ResponseTypeOf, UpdateTypeOf, TotalPnl, MarketData.BboStep, MarketData.MidPrice, Fill, Mark, CheckOrder;
  }

  /** The count stays within its limit, resets included. */
  lemma {:induction false} CountBounded(cfg: Config, es: seq<Event>, t: TickerId, l: RiskLimits)
    requires cfg.enableRiskChecks && WellFormedRun(cfg, es) && Capped(cfg, es, t, l)
    ensures CountFor(Run(cfg, es), t) <= l.maxOpenOrders
  {
    hide Apply, WellFormed, Capped, CappedAt, TrackedCount;
    if es == [] {
    } else {
      var before := es[..|es| - 1];
      CappedStep(cfg, es, t, l);
      CountBounded(cfg, before, t, l);
      CountsAgree(cfg, before, t);
      StepKeepsCountBounded(cfg, Run(cfg, before), es[|es| - 1], t, l);
    }
  }

  // ---------------------------------------------------------------- whatever the words do

  /** Under any limits, resets and wrapping included, the position stays within max_position
      plus all the open orders allowed. */
  lemma PositionBoundRegardless(cfg: Config, es: seq<Event>, t: TickerId, l: RiskLimits)
    requires cfg.enableRiskChecks && WellFormedRun(cfg, es) && Capped(cfg, es, t, l)
    ensures Abs(PositionOf(Run(cfg, es), t).position) <= Max(0, l.maxPosition) + OpenCapacity(l)
  {
    hide Run, WellFormedRun, Capped, OpenCapacity, Within, TrackedQty;
    var bound := Max(0, l.maxPosition) + OpenCapacity(l);
    StaysWithinRegardless(cfg, es, t, l, bound);
    WithinMeans(Run(cfg, es), t, bound);
  }

  lemma {:induction false} StaysWithinRegardless(cfg: Config, es: seq<Event>, t: TickerId, l: RiskLimits, bound: int)
    requires cfg.enableRiskChecks && WellFormedRun(cfg, es) && Capped(cfg, es, t, l)
    requires bound == Max(0, l.maxPosition) + OpenCapacity(l)
    ensures Within(Run(cfg, es), t, bound)
  {
    hide Apply, WellFormed, Capped, CappedAt, OrdersWithin, CountAgreesAt, Exempt, OpenCapacity, Within, TrackedQty,
         CheckRisk;
    if es == [] {
      StartsWithin(cfg, t, bound);
    } else {
      var before, e := es[..|es| - 1], es[|es| - 1];
      CappedStep(cfg, es, t, l);
      StaysWithinRegardless(cfg, before, t, l, bound);
      CountsAgree(cfg, before, t);
      OrdersStayWithin(cfg, before, t, l);
      if Accepts(cfg, Run(cfg, before), e) && e.ticker == t {
        AcceptedOrder(cfg, Run(cfg, before), e, l);
      }
      StepKeepsWithin(cfg, Run(cfg, before), e, t, bound);
    }
  }

  // ---------------------------------------------------------------- one order at a time

  /** With at most one open order, or orders of quantity zero only, the exposure limit holds
      under any limits, resets and wrapping included. */
  lemma {:induction false} OneOrderStaysWithin(cfg: Config, es: seq<Event>, t: TickerId, l: RiskLimits, bound: int)
    requires cfg.enableRiskChecks && WellFormedRun(cfg, es) && Capped(cfg, es, t, l)
    requires l.maxOpenOrders <= 1 || l.maxOrderQty == 0
    requires bound == ExposureLimit(l)
    ensures Within(Run(cfg, es), t, bound)
  {
    hide Apply, WellFormed, Capped, CappedAt, OrdersWithin, Exempt, OpenCapacity, Within, TrackedQty, CheckRisk,
         TrackedCount;
    if es == [] {
      StartsWithin(cfg, t, bound);
    } else {
      var before, e := es[..|es| - 1], es[|es| - 1];
      CappedStep(cfg, es, t, l);
      var s := Run(cfg, before);
      OneOrderStaysWithin(cfg, before, t, l, bound);
      CountsAgree(cfg, before, t);
      OrdersStayWithin(cfg, before, t, l);
      if Accepts(cfg, s, e) && e.ticker == t {
        AcceptedOrder(cfg, s, e, l);
        NothingElseTracked(cfg, s, e, l);
      }
      StepKeepsWithin(cfg, s, e, t, bound);
    }
  }

  lemma NothingElseTracked(cfg: Config, s: EngineState, e: Event, l: RiskLimits)
    requires cfg.enableRiskChecks && Accepts(cfg, s, e) && CappedAt(s, e, e.ticker, l)
    requires CountAgreesAt(s, e.ticker) && OrdersWithin(s, e.ticker, l.maxOrderQty)
    requires l.maxOpenOrders <= 1 || l.maxOrderQty == 0
    ensures TrackedQty(s, e.ticker, e.side) <= 0
  {
    hide Sum;
    TrackedWithinCount(s, e.ticker, e.side, l.maxOrderQty);
  }

  // ---------------------------------------------------------------- when nothing can trade

  /** Nothing has happened to the ticker. */
  ghost predicate Dormant(s: EngineState, t: TickerId) {
    var p := PositionOf(s, t);
    && p.position == 0 && p.realized == 0 && p.unrealized == 0
    && p.openBuyQty == 0 && p.openSellQty == 0
    && TrackedQty(s, t, Buy) == 0 && TrackedQty(s, t, Sell) == 0
  }

  /** No order of positive quantity passes the checks from a dormant position. */
  predicate Frozen(l: RiskLimits) {
    l.maxPosition <= 0 || l.maxLoss < 0
  }

  lemma FrozenSubmit(cfg: Config, s: EngineState, e: Event, t: TickerId, l: RiskLimits)
    requires cfg.enableRiskChecks && e.Submitting? && WellFormed(s, e) && CappedAt(s, e, t, l)
    requires PositionOf(s, t).ticker == t && Dormant(s, t) && Frozen(l)
    ensures Dormant(Apply(cfg, s, e), t)
  {
    hide Sum;
    var o, id := Tracked(e.ticker, e.side, e.price, e.qty, e.qty), IdFor(s, e.callback);
    TrackedAfterInsert(s, Track(s, id, o), id, o, t, Buy);
    TrackedAfterInsert(s, Track(s, id, o), id, o, t, Sell);
  }

  lemma FrozenResponse(s: EngineState, r: ClientResponse, t: TickerId)
    requires WellFormedResponse(s, r) && Dormant(s, t)
    ensures Dormant(Respond(s, r), t)
  {
    hide Respond, TrackedQty, WellFormedResponse;
    if r.clientOrderId in s.pending {
      TrackedCovers(s, r.clientOrderId);
      assert s.pending[r.clientOrderId].side.Buy? || s.pending[r.clientOrderId].side.Sell?;
    }
    FrozenPosition(s, r, t);
    ResponseKeepsSlack(s, r, t, 0, 0);
  }

  lemma FrozenPosition(s: EngineState, r: ClientResponse, t: TickerId)
    requires WellFormedResponse(s, r)
    requires var p := PositionOf(s, t);
      && p.position == 0 && p.realized == 0 && p.unrealized == 0
      && p.openBuyQty == 0 && p.openSellQty == 0
    requires var id := r.clientOrderId;
      id in s.pending && s.pending[id].ticker == t ==> s.pending[id].leaves == 0
    ensures var p := PositionOf(Respond(s, r), t);
      && p.position == 0 && p.realized == 0 && p.unrealized == 0
      && p.openBuyQty == 0 && p.openSellQty == 0
  {
    hide ResponseTypeOf, TotalPnl;
  }

  lemma StepKeepsDormant(cfg: Config, s: EngineState, e: Event, t: TickerId, l: RiskLimits)
    requires cfg.enableRiskChecks && PositionOf(s, t).ticker == t && WellFormed(s, e) && CappedAt(s, e, t, l)
    requires Frozen(l) && Dormant(s, t)
    ensures Dormant(Apply(cfg, s, e), t)
  {
    hide Sum, Respond, CheckRisk, UpdateTypeOf, WellFormedResponse, TotalPnl, MarketData.BboStep, MarketData.MidPrice;
    match e {
      case Submitting(_, _, _, _, _) => FrozenSubmit(cfg, s, e, t, l);
      case Responding(r) => FrozenResponse(s, r, t);
      case MarketUpdated(u) =>
      case Quoted(tk, b) =>
      case Resetting => NothingTracked(Reset(s), t);
      case LimitsChanged(_) =>
    }
  }

  lemma {:induction false} FrozenStaysDormant(cfg: Config, es: seq<Event>, t: TickerId, l: RiskLimits)
    requires cfg.enableRiskChecks && WellFormedRun(cfg, es) && Capped(cfg, es, t, l) && Frozen(l)
    ensures Dormant(Run(cfg, es), t)
  {
    hide Apply, WellFormed, Capped, CappedAt, TrackedCount, TrackedQty;
    if es == [] {
      NothingTracked(NewEngine(cfg), t);
    } else {
      var before := es[..|es| - 1];
      CappedStep(cfg, es, t, l);
      FrozenStaysDormant(cfg, before, t, l);
      CountsAgree(cfg, before, t);
      StepKeepsDormant(cfg, Run(cfg, before), es[|es| - 1], t, l);
    }
  }
}
