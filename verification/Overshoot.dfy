/** Exactly when the risk checks keep a position within max_position: runs that pass it for
    all the other limits, and one classification over runs with or without `reset` and with
    or without orders that skip the position limit. */
module Overshoot {
  import opened Types
  import opened Arithmetic
  import opened Protocol
  import opened Position
  import opened Risk
  import opened TradeEngine
  import opened TradeRuns
  import opened Exposure

  // ---------------------------------------------------------------- reachable states

  /** The runs considered: under which limits, may they reset the engine, may orders of the
      ticker be exempt? */
  datatype Scope = Scope(limits: RiskLimits, resets: bool, exemptions: bool)

  /** Whenever an order of the ticker is submitted, these are the limits in force. */
  predicate Fixed(cfg: Config, es: seq<Event>, t: TickerId, l: RiskLimits) {
    es == [] ||
    var before, e := es[..|es| - 1], es[|es| - 1];
    Fixed(cfg, before, t, l) && (e.Submitting? && e.ticker == t ==> LimitsAfter(cfg, before, t) == l)
  }

  lemma {:induction false} FixedIsCapped(cfg: Config, es: seq<Event>, t: TickerId, l: RiskLimits)
    requires Fixed(cfg, es, t, l)
    ensures Capped(cfg, es, t, l)
  {
    hide LimitsAfter;
    if es == [] {
    } else {
      FixedIsCapped(cfg, es[..|es| - 1], t, l);
    }
  }

  ghost predicate OfKind(cfg: Config, es: seq<Event>, t: TickerId, scope: Scope) {
    && WellFormedRun(cfg, es)
    && (scope.resets || NoReset(es))
    && (scope.exemptions || NeverExempt(cfg, es, t))
  }

  /** Limits may change, but not above those of the scope. */
  ghost predicate UnderScope(cfg: Config, es: seq<Event>, t: TickerId, scope: Scope) {
    OfKind(cfg, es, t, scope) && Capped(cfg, es, t, scope.limits)
  }

  ghost predicate InScope(cfg: Config, es: seq<Event>, t: TickerId, scope: Scope) {
    OfKind(cfg, es, t, scope) && Fixed(cfg, es, t, scope.limits)
  }

  /** And the limits are in force for what comes next. */
  ghost predicate Ready(cfg: Config, es: seq<Event>, t: TickerId, scope: Scope) {
    InScope(cfg, es, t, scope) && LimitsAfter(cfg, es, t) == scope.limits
  }

  ghost predicate Permitted(cfg: Config, s: EngineState, e: Event, t: TickerId, scope: Scope) {
    && WellFormed(s, e) && !e.LimitsChanged?
    && (e.Resetting? ==> scope.resets)
    && (Exempt(cfg, s, e) && e.ticker == t ==> scope.exemptions)
  }

  ghost predicate Reached(cfg: Config, s: EngineState, t: TickerId, scope: Scope) {
    exists es :: Ready(cfg, es, t, scope) && Run(cfg, es) == s
  }

  /** The run begins by setting the limits. */
  function Opening(t: TickerId, scope: Scope): Event {
    LimitsChanged(SetFor(t, scope.limits))
  }

  function Opened(cfg: Config, t: TickerId, scope: Scope): EngineState {
    var s := NewEngine(cfg);
    s.(risk := Change(s.risk, SetFor(t, scope.limits)))
  }

  lemma OpeningIsReady(cfg: Config, t: TickerId, scope: Scope)
    ensures Ready(cfg, [Opening(t, scope)], t, scope) && Run(cfg, [Opening(t, scope)]) == Opened(cfg, t, scope)
  {
    hide NewEngine;
    var es := [Opening(t, scope)];
    assert es[..|es| - 1] == [];
    assert Run(cfg, []) == NewEngine(cfg);
    assert ChangesIn([]) + [es[0].change] == [es[0].change];
    assert WellFormedRun(cfg, []) && NeverExempt(cfg, [], t) && Fixed(cfg, [], t, scope.limits);
  }

  lemma ReachStart(cfg: Config, t: TickerId, scope: Scope)
    ensures Reached(cfg, Opened(cfg, t, scope), t, scope)
  {
    hide Ready, Run, Opened;
    OpeningIsReady(cfg, t, scope);
  }

  lemma RunAppend(cfg: Config, es: seq<Event>, e: Event, t: TickerId, scope: Scope)
    requires Ready(cfg, es, t, scope) && Permitted(cfg, Run(cfg, es), e, t, scope)
    ensures Ready(cfg, es + [e], t, scope) && Run(cfg, es + [e]) == Apply(cfg, Run(cfg, es), e)
  {
    hide Apply, WellFormed, CheckRisk, RiskReducing, InForce;
    assert (es + [e])[..|es|] == es;
    assert ChangesIn(es) + [] == ChangesIn(es);
  }

  lemma ReachNext(cfg: Config, s: EngineState, e: Event, t: TickerId, scope: Scope)
    requires Reached(cfg, s, t, scope) && Permitted(cfg, s, e, t, scope)
    ensures Reached(cfg, Apply(cfg, s, e), t, scope)
  {
    hide Ready, Permitted, Run, Apply;
    var es :| Ready(cfg, es, t, scope) && Run(cfg, es) == s;
    RunAppend(cfg, es, e, t, scope);
  }

  lemma ReadyInScope(cfg: Config, es: seq<Event>, t: TickerId, scope: Scope)
    requires Ready(cfg, es, t, scope)
    ensures InScope(cfg, es, t, scope)
  {
    hide InScope;
  }

  lemma ReadyLimits(cfg: Config, es: seq<Event>, t: TickerId, scope: Scope)
    requires Ready(cfg, es, t, scope)
    ensures LimitsFor(Run(cfg, es).risk, t) == scope.limits
  {
    hide Run, InScope, LimitsAfter;
    EngineLimits(cfg, es, t);
  }

  lemma ReachedLimits(cfg: Config, s: EngineState, t: TickerId, scope: Scope)
    requires Reached(cfg, s, t, scope)
    ensures LimitsFor(s.risk, t) == scope.limits
  {
    hide Run, Ready;
    var es :| Ready(cfg, es, t, scope) && Run(cfg, es) == s;
    ReadyLimits(cfg, es, t, scope);
  }

  // ---------------------------------------------------------------- staged buys

  /** A total bought in orders of at most q each: how much the first i orders come to. */
  function Part(total: nat, q: nat, i: nat): nat {
    Min(i * q, total)
  }

  function Size(total: nat, q: nat, i: nat): nat
    requires i >= 1
    ensures Size(total, q, i) == Part(total, q, i) - Part(total, q, i - 1)
    ensures Size(total, q, i) <= q
  {
    assert i * q == (i - 1) * q + q;
    Part(total, q, i) - Part(total, q, i - 1)
  }

  /** What is bought and in which pieces. */
  datatype Plan = Plan(ticker: TickerId, total: nat, piece: Qty)

  function OrderOf(plan: Plan, i: nat): Tracked
    requires i >= 1
  {
    var z := Size(plan.total, plan.piece, i);
    Tracked(plan.ticker, Buy, 0, z, z)
  }

  /** Of the plan's orders those after the first lo and up to hi are open, and nothing else;
      the position stands at p, and all trades so far were at price zero. */
  ghost predicate Staged(s: EngineState, plan: Plan, lo: nat, hi: nat, p: int) {
    var pos := PositionOf(s, plan.ticker);
    && lo <= hi
    && pos.ticker == plan.ticker && pos.position == p
    && pos.avgOpenPrice == 0 && pos.realized == 0 && pos.unrealized == 0
    && CountFor(s, plan.ticker) == hi - lo
    && (forall id | id in s.pending :: lo < id <= hi)
    && (forall id: nat | lo < id <= hi :: id in s.pending && s.pending[id] == OrderOf(plan, id))
  }

  function SubmitAt(t: TickerId, side: Side, qty: Qty, id: nat): Event {
    Submitting(t, side, 0, qty, Some(id))
  }

  /** The order is filled in one go, at price zero. */
  function FillAt(t: TickerId, id: u64, qty: Qty): Event {
    Responding(ClientResponse(ResponseCode(ResponseType.Filled), 0, t, id, 0, 0, 0, qty, 0))
  }

  /** A buy of this size passes the checks while `waiting` orders are open. */
  predicate Passes(l: RiskLimits, p: int, open: nat, waiting: nat, qty: nat, scope: Scope) {
    && qty <= l.maxOrderQty && waiting < l.maxOpenOrders && l.maxLoss >= 0
    && if p < 0 then scope.exemptions else p + open + qty <= l.maxPosition
  }

  lemma BuyPasses(cfg: Config, s: EngineState, plan: Plan, lo: nat, hi: nat, p: int, id: nat, qty: Qty, scope: Scope)
    requires Staged(s, plan, lo, hi, p) && id !in s.pending && LimitsFor(s.risk, plan.ticker) == scope.limits
    requires Passes(scope.limits, p, OpenQty(s, plan.ticker, Buy), hi - lo, qty, scope)
    ensures var e := SubmitAt(plan.ticker, Buy, qty, id);
      && Permitted(cfg, s, e, plan.ticker, scope)
      && Apply(cfg, s, e) == Track(s, id, Tracked(plan.ticker, Buy, 0, qty, qty))
  {
    hide Track, OrderOf;
  }

  /** What tracking a buy leaves as it was, and what it adds. */
  lemma BuyTracked(s: EngineState, id: nat, o: Tracked)
    requires o.side == Buy && CountFor(s, o.ticker) + 1 < WORD32
    ensures var s' := Track(s, id, o);
      && s'.pending == s.pending[id := o]
      && CountFor(s', o.ticker) == CountFor(s, o.ticker) + 1
      && OpenQty(s', o.ticker, Buy) == (OpenQty(s, o.ticker, Buy) + o.leaves) % WORD32
      && PositionOf(s', o.ticker) == PositionOf(s, o.ticker).(openBuyQty := OpenQty(s', o.ticker, Buy))
  {
  }

  lemma TrackStages(s: EngineState, plan: Plan, lo: nat, hi: nat, p: int)
    requires Staged(s, plan, lo, hi, p) && hi + 1 - lo < WORD32
    ensures var s' := Track(s, hi + 1, OrderOf(plan, hi + 1));
      && Staged(s', plan, lo, hi + 1, p)
      && OpenQty(s', plan.ticker, Buy) ==
         (OpenQty(s, plan.ticker, Buy) + Size(plan.total, plan.piece, hi + 1)) % WORD32
  {
    hide Size, Track, PositionOf, CountFor, OpenQty;
    BuyTracked(s, hi + 1, OrderOf(plan, hi + 1));
  }

  /** The next order of the plan is queued. */
  lemma QueueOn(cfg: Config, es: seq<Event>, plan: Plan, lo: nat, hi: nat, p: int, scope: Scope)
    returns (es': seq<Event>)
    requires Ready(cfg, es, plan.ticker, scope) && Staged(Run(cfg, es), plan, lo, hi, p)
    requires Passes(scope.limits, p, OpenQty(Run(cfg, es), plan.ticker, Buy), hi - lo,
                    Size(plan.total, plan.piece, hi + 1), scope)
    ensures es' == es + [SubmitAt(plan.ticker, Buy, Size(plan.total, plan.piece, hi + 1), hi + 1)]
    ensures Ready(cfg, es', plan.ticker, scope) && Staged(Run(cfg, es'), plan, lo, hi + 1, p)
    ensures OpenQty(Run(cfg, es'), plan.ticker, Buy) ==
      (OpenQty(Run(cfg, es), plan.ticker, Buy) + Size(plan.total, plan.piece, hi + 1)) % WORD32
  {
    hide Ready, Run, Permitted, Size, OpenQty, Apply, Track;
    var s, z := Run(cfg, es), Size(plan.total, plan.piece, hi + 1);
    ReadyLimits(cfg, es, plan.ticker, scope);
    BuyPasses(cfg, s, plan, lo, hi, p, hi + 1, z, scope);
    RunAppend(cfg, es, SubmitAt(plan.ticker, Buy, z, hi + 1), plan.ticker, scope);
    TrackStages(s, plan, lo, hi, p);
    es' := es + [SubmitAt(plan.ticker, Buy, z, hi + 1)];
  }

  lemma QueueNext(cfg: Config, s: EngineState, plan: Plan, lo: nat, hi: nat, p: int, scope: Scope)
    returns (s': EngineState)
    requires Reached(cfg, s, plan.ticker, scope) && Staged(s, plan, lo, hi, p)
    requires Passes(scope.limits, p, OpenQty(s, plan.ticker, Buy), hi - lo,
                    Size(plan.total, plan.piece, hi + 1), scope)
    ensures Reached(cfg, s', plan.ticker, scope) && Staged(s', plan, lo, hi + 1, p)
    ensures OpenQty(s', plan.ticker, Buy) ==
      (OpenQty(s, plan.ticker, Buy) + Size(plan.total, plan.piece, hi + 1)) % WORD32
  {
    hide Ready, Run, Size, OpenQty, Staged;
    var es :| Ready(cfg, es, plan.ticker, scope) && Run(cfg, es) == s;
    es := QueueOn(cfg, es, plan, lo, hi, p, scope);
    s' := Run(cfg, es);
  }

  /** Trades at price zero cost nothing. */
  lemma FreeFill(p: PositionState, side: Side, qty: nat)
    requires p.avgOpenPrice == 0 && p.realized == 0 && p.unrealized == 0
    ensures var p' := Fill(p, side, qty, 0);
      && p'.avgOpenPrice == 0 && p'.realized == 0 && p'.unrealized == 0
      && Facing(p'.position, side) == Facing(p.position, side) + qty
  {
  }

  lemma FilledInOneGo(s: EngineState, t: TickerId, id: u64, side: Side, qty: Qty)
    requires id in s.pending && s.pending[id] == Tracked(t, side, 0, qty, qty)
    requires var p := PositionOf(s, t); p.avgOpenPrice == 0 && p.realized == 0 && p.unrealized == 0
    ensures var e := FillAt(t, id, qty);
      var s' := Respond(s, e.response);
      var p, p' := PositionOf(s, t), PositionOf(s', t);
      && WellFormed(s, e)
      && s'.pending == s.pending - {id} && CountFor(s', t) == SatSub(CountFor(s, t), 1)
      && p'.ticker == p.ticker && p'.avgOpenPrice == 0 && p'.realized == 0 && p'.unrealized == 0
      && Facing(p'.position, side) == Facing(p.position, side) + qty
      && p'.openBuyQty == if side.Buy? then SatSub(p.openBuyQty, qty) else p.openBuyQty
  {
    hide TotalPnl, AvgAfter, RealizedBy, Unrealized;
    FreeFill(PositionOf(s, t), side, qty);
  }

  lemma FillStages(s: EngineState, plan: Plan, lo: nat, hi: nat, p: int)
    requires Staged(s, plan, lo, hi, p) && lo < hi < WORD64
    ensures var z := Size(plan.total, plan.piece, lo + 1);
      var e := FillAt(plan.ticker, lo + 1, z);
      var s' := Respond(s, e.response);
      && WellFormed(s, e)
      && Staged(s', plan, lo + 1, hi, p + z)
      && OpenQty(s', plan.ticker, Buy) == SatSub(OpenQty(s, plan.ticker, Buy), z)
  {
    hide Size, Respond, WellFormed, FillAt;
    FilledInOneGo(s, plan.ticker, lo + 1, Buy, Size(plan.total, plan.piece, lo + 1));
  }

  /** The oldest open order is filled. */
  lemma FillOn(cfg: Config, es: seq<Event>, plan: Plan, lo: nat, hi: nat, p: int, scope: Scope)
    returns (es': seq<Event>)
    requires Ready(cfg, es, plan.ticker, scope) && Staged(Run(cfg, es), plan, lo, hi, p) && lo < hi < WORD64
    ensures var z := Size(plan.total, plan.piece, lo + 1);
      && es' == es + [FillAt(plan.ticker, lo + 1, z)]
      && Ready(cfg, es', plan.ticker, scope) && Staged(Run(cfg, es'), plan, lo + 1, hi, p + z)
      && OpenQty(Run(cfg, es'), plan.ticker, Buy) == SatSub(OpenQty(Run(cfg, es), plan.ticker, Buy), z)
  {
    hide Ready, Run, Size, OpenQty, Staged, WellFormed, Respond;
    FillStages(Run(cfg, es), plan, lo, hi, p);
    var e := FillAt(plan.ticker, lo + 1, Size(plan.total, plan.piece, lo + 1));
    RunAppend(cfg, es, e, plan.ticker, scope);
    es' := es + [e];
  }

  lemma FillNext(cfg: Config, s: EngineState, plan: Plan, lo: nat, hi: nat, p: int, scope: Scope)
    returns (s': EngineState)
    requires Reached(cfg, s, plan.ticker, scope) && Staged(s, plan, lo, hi, p) && lo < hi < WORD64
    ensures var z := Size(plan.total, plan.piece, lo + 1);
      && Reached(cfg, s', plan.ticker, scope) && Staged(s', plan, lo + 1, hi, p + z)
      && OpenQty(s', plan.ticker, Buy) == SatSub(OpenQty(s, plan.ticker, Buy), z)
  {
    hide Ready, Run, Size, OpenQty, Staged;
    var es :| Ready(cfg, es, plan.ticker, scope) && Run(cfg, es) == s;
    es := FillOn(cfg, es, plan, lo, hi, p, scope);
    s' := Run(cfg, es);
  }

  /** One more is bought on the side, under the id 0. */
  lemma BoughtOne(s: EngineState, plan: Plan, lo: nat, hi: nat, p: int)
    requires Staged(s, plan, lo, hi, p) && hi + 1 - lo < WORD32 && OpenQty(s, plan.ticker, Buy) == 0
    ensures var s1, e := Track(s, 0, Tracked(plan.ticker, Buy, 0, 1, 1)), FillAt(plan.ticker, 0, 1);
      var s' := Respond(s1, e.response);
      && WellFormed(s1, e)
      && Staged(s', plan, lo, hi, p + 1) && OpenQty(s', plan.ticker, Buy) == 0
  {
    hide OrderOf, Respond, WellFormed;
    var s1 := Track(s, 0, Tracked(plan.ticker, Buy, 0, 1, 1));
    FilledInOneGo(s1, plan.ticker, 0, Buy, 1);
    assert s1.pending - {0} == s.pending;
  }

  lemma BuyOne(cfg: Config, s: EngineState, plan: Plan, lo: nat, hi: nat, p: int, scope: Scope)
    returns (s': EngineState)
    requires Reached(cfg, s, plan.ticker, scope) && Staged(s, plan, lo, hi, p)
    requires OpenQty(s, plan.ticker, Buy) == 0 && Passes(scope.limits, p, 0, hi - lo, 1, scope)
    ensures Reached(cfg, s', plan.ticker, scope) && Staged(s', plan, lo, hi, p + 1)
    ensures OpenQty(s', plan.ticker, Buy) == 0
  {
    hide Reached, OpenQty, Respond, Apply, Permitted, Track, WellFormed, OrderOf;
    ReachedLimits(cfg, s, plan.ticker, scope);
    BuyPasses(cfg, s, plan, lo, hi, p, 0, 1, scope);
    ReachNext(cfg, s, SubmitAt(plan.ticker, Buy, 1, 0), plan.ticker, scope);
    BoughtOne(s, plan, lo, hi, p);
    var s1, e := Track(s, 0, Tracked(plan.ticker, Buy, 0, 1, 1)), FillAt(plan.ticker, 0, 1);
    s' := Respond(s1, e.response);
    FillReached(cfg, s1, e, plan.ticker, scope);
  }

  lemma FillReached(cfg: Config, s: EngineState, e: Event, t: TickerId, scope: Scope)
    requires e.Responding? && Reached(cfg, s, t, scope) && WellFormed(s, e)
    ensures Reached(cfg, Respond(s, e.response), t, scope)
  {
    hide Reached, Respond, WellFormed;
    ReachNext(cfg, s, e, t, scope);
  }

  // ---------------------------------------------------------------- whole phases

  /** Short by one if exempt orders are wanted, flat otherwise. */
  function StartOf(scope: Scope): int {
    if scope.exemptions then -1 else 0
  }

  lemma SoldOne(cfg: Config, plan: Plan, scope: Scope)
    requires var l := scope.limits;
      l.maxPosition >= 1 && l.maxLoss >= 0 && l.maxOrderQty >= 1 && l.maxOpenOrders >= 1
    ensures var e := SubmitAt(plan.ticker, Sell, 1, 0);
      var s := Opened(cfg, plan.ticker, scope);
      && Permitted(cfg, s, e, plan.ticker, scope)
      && Apply(cfg, s, e) == Track(s, 0, Tracked(plan.ticker, Sell, 0, 1, 1))
  {
  }

  lemma SoldOneFilled(cfg: Config, plan: Plan, scope: Scope)
    ensures var s, e := Opened(cfg, plan.ticker, scope), FillAt(plan.ticker, 0, 1);
      var s1 := Track(s, 0, Tracked(plan.ticker, Sell, 0, 1, 1));
      var s' := Respond(s1, e.response);
      && WellFormed(s1, e)
      && Staged(s', plan, 0, 0, -1) && OpenQty(s', plan.ticker, Buy) == 0
  {
    hide OrderOf, Respond, WellFormed;
    var s1 := Track(Opened(cfg, plan.ticker, scope), 0, Tracked(plan.ticker, Sell, 0, 1, 1));
    FilledInOneGo(s1, plan.ticker, 0, Sell, 1);
    assert s1.pending - {0} == map[];
  }

  lemma Begin(cfg: Config, plan: Plan, scope: Scope) returns (s: EngineState)
    requires var l := scope.limits;
      l.maxPosition >= 1 && l.maxLoss >= 0 && l.maxOrderQty >= 1 && l.maxOpenOrders >= 1
    ensures Reached(cfg, s, plan.ticker, scope) && Staged(s, plan, 0, 0, StartOf(scope))
    ensures OpenQty(s, plan.ticker, Buy) == 0
  {
    hide Reached, Respond, Apply, Permitted, Track, WellFormed, OrderOf;
    s := Opened(cfg, plan.ticker, scope);
    ReachStart(cfg, plan.ticker, scope);
    if scope.exemptions {
      SoldOne(cfg, plan, scope);
      ReachNext(cfg, s, SubmitAt(plan.ticker, Sell, 1, 0), plan.ticker, scope);
      SoldOneFilled(cfg, plan, scope);
      var s1, e := Track(s, 0, Tracked(plan.ticker, Sell, 0, 1, 1)), FillAt(plan.ticker, 0, 1);
      FillReached(cfg, s1, e, plan.ticker, scope);
      s := Respond(s1, e.response);
    }
  }

  lemma PartGrows(total: nat, q: nat, i: nat)
    requires i >= 1
    ensures Part(total, q, i - 1) <= Part(total, q, i) <= total
  {
    assert i * q == (i - 1) * q + q;
  }

  /** From the start, k orders of the plan are queued. */
  lemma {:induction false} QueueAll(cfg: Config, plan: Plan, k: nat, scope: Scope) returns (s: EngineState)
    requires var l := scope.limits;
      && l.maxPosition >= 1 && l.maxLoss >= 0 && plan.piece == l.maxOrderQty >= 1
      && 1 <= l.maxOpenOrders && k <= l.maxOpenOrders
      && (scope.exemptions || plan.total <= l.maxPosition)
    ensures Reached(cfg, s, plan.ticker, scope) && Staged(s, plan, 0, k, StartOf(scope))
    ensures OpenQty(s, plan.ticker, Buy) == Part(plan.total, plan.piece, k) % WORD32
  {
    hide Reached, Staged, OpenQty, Part;
    if k == 0 {
      s := Begin(cfg, plan, scope);
      NoPart(plan);
    } else {
      var s1 := QueueAll(cfg, plan, k - 1, scope);
      PartGrows(plan.total, plan.piece, k);
      WordAdds(Part(plan.total, plan.piece, k - 1), Size(plan.total, plan.piece, k));
      s := QueueNext(cfg, s1, plan, 0, k - 1, StartOf(scope), scope);
    }
  }

  lemma WordAdds(x: nat, z: nat)
    ensures (x % WORD32 + z) % WORD32 == (x + z) % WORD32
    ensures x % WORD32 <= x
  {
  }

  lemma NoPart(plan: Plan)
    ensures Part(plan.total, plan.piece, 0) == 0
  {
  }

  /** The orders left are filled. */
  lemma {:induction false} FillRest(cfg: Config, s: EngineState, plan: Plan, lo: nat, hi: nat, p: int, scope: Scope)
    returns (s': EngineState)
    requires Reached(cfg, s, plan.ticker, scope) && Staged(s, plan, lo, hi, p) && hi < WORD64
    ensures Reached(cfg, s', plan.ticker, scope)
    ensures PositionOf(s', plan.ticker).position ==
      p + Part(plan.total, plan.piece, hi) - Part(plan.total, plan.piece, lo)
    decreases hi - lo
  {
    hide Reached, OpenQty, Part;
    if lo == hi {
      s' := s;
    } else {
      var s1 := FillNext(cfg, s, plan, lo, hi, p, scope);
      s' := FillRest(cfg, s1, plan, lo + 1, hi, p + Size(plan.total, plan.piece, lo + 1), scope);
    }
  }

  /** While no open quantity shows, the position climbs to the limit one by one. */
  lemma {:induction false} Climb(cfg: Config, s: EngineState, plan: Plan, lo: nat, hi: nat, p: int, scope: Scope)
    returns (s': EngineState)
    requires Reached(cfg, s, plan.ticker, scope) && Staged(s, plan, lo, hi, p) && OpenQty(s, plan.ticker, Buy) == 0
    requires var l := scope.limits;
      && l.maxOrderQty >= 1 && l.maxLoss >= 0 && hi - lo < l.maxOpenOrders
      && p <= l.maxPosition && (p >= 0 || scope.exemptions)
    ensures Reached(cfg, s', plan.ticker, scope)
    ensures Staged(s', plan, lo, hi, scope.limits.maxPosition)
    decreases scope.limits.maxPosition - p
  {
    hide Reached, OpenQty, Staged;
    if p == scope.limits.maxPosition {
      s' := s;
    } else {
      var s1 := BuyOne(cfg, s, plan, lo, hi, p, scope);
      s' := Climb(cfg, s1, plan, lo, hi, p + 1, scope);
    }
  }

  /** Orders forgotten by `reset` leave their open quantity behind. */
  lemma {:induction false} Leave(cfg: Config, plan: Plan, n: nat, scope: Scope) returns (s: EngineState)
    requires scope.resets && plan.total == 1 && n < WORD32
    requires var l := scope.limits;
      && l.maxPosition >= 1 && l.maxLoss >= 0 && plan.piece == l.maxOrderQty >= 1 && l.maxOpenOrders >= 1
      && (scope.exemptions || n <= l.maxPosition)
    ensures Reached(cfg, s, plan.ticker, scope) && Staged(s, plan, 0, 0, StartOf(scope))
    ensures OpenQty(s, plan.ticker, Buy) == n
  {
    hide Reached, OpenQty, Staged;
    if n == 0 {
      s := Begin(cfg, plan, scope);
    } else {
      var s1 := Leave(cfg, plan, n - 1, scope);
      OneToBuy(plan);
      var s2 := QueueNext(cfg, s1, plan, 0, 0, StartOf(scope), scope);
      ResetStaged(cfg, s2, plan, StartOf(scope), scope);
      s := Reset(s2);
    }
  }

  lemma OneToBuy(plan: Plan)
    requires plan.total == 1 && plan.piece >= 1
    ensures Part(1, plan.piece, 0) == 0 && Part(1, plan.piece, 1) == 1 && Size(1, plan.piece, 1) == 1
  {
  }

  lemma ResetStaged(cfg: Config, s: EngineState, plan: Plan, p: int, scope: Scope)
    requires scope.resets && Reached(cfg, s, plan.ticker, scope) && Staged(s, plan, 0, 1, p)
    ensures Reached(cfg, Reset(s), plan.ticker, scope) && Staged(Reset(s), plan, 0, 0, p)
    ensures OpenQty(Reset(s), plan.ticker, Buy) == OpenQty(s, plan.ticker, Buy)
  {
    hide Reached, OrderOf;
    ReachNext(cfg, s, Resetting, plan.ticker, scope);
  }

  // ---------------------------------------------------------------- limits that are passed

  /** One short sale and a full set of buys against it, none held to the position limit, end
      one below all the open orders allowed: the exposure bound is reached. */
  lemma BoundIsReached(cfg: Config, t: TickerId, scope: Scope) returns (s: EngineState)
    requires var l := scope.limits;
      scope.exemptions && l.maxPosition >= 1 && l.maxLoss >= 0 && OpenCapacity(l) >= 1
    ensures Reached(cfg, s, t, scope) && PositionOf(s, t).position == OpenCapacity(scope.limits) - 1
  {
    hide Reached, Staged;
    var l := scope.limits;
    var plan := Plan(t, OpenCapacity(l), l.maxOrderQty);
    s := QueueAll(cfg, plan, l.maxOpenOrders, scope);
    s := FillRest(cfg, s, plan, 0, l.maxOpenOrders, -1, scope);
  }

  /** Open orders that add up to a whole word show as none. Behind them the position climbs
      to the limit, and then they are filled. */
  lemma HiddenByWrapping(cfg: Config, t: TickerId, scope: Scope) returns (s: EngineState)
    requires var l := scope.limits;
      && l.maxLoss >= 0 && OpenCapacity(l) >= WORD32
      && l.maxPosition >= if scope.exemptions then WORD32 - 1 else WORD32
    ensures Reached(cfg, s, t, scope)
    ensures PositionOf(s, t).position == scope.limits.maxPosition + WORD32 - scope.limits.maxOrderQty
  {
    hide Reached, Staged;
    var l := scope.limits;
    var k, q, plan := l.maxOpenOrders, l.maxOrderQty, Plan(t, WORD32, l.maxOrderQty);
    assert Part(WORD32, q, 1) == q && Part(WORD32, q, 0) == 0 && Part(WORD32, q, k) == WORD32;
    s := QueueAll(cfg, plan, k, scope);
    s := FillNext(cfg, s, plan, 0, k, StartOf(scope), scope);
    s := Climb(cfg, s, plan, 1, k, StartOf(scope) + q, scope);
    s := FillRest(cfg, s, plan, 1, k, l.maxPosition, scope);
  }

  /** So does one order on top of an open quantity that resets have left one below a word. */
  lemma HiddenByResets(cfg: Config, t: TickerId, scope: Scope) returns (s: EngineState)
    requires var l := scope.limits;
      && scope.resets && l.maxLoss >= 0 && l.maxOrderQty >= 1 && l.maxOpenOrders >= 2
      && l.maxPosition >= if scope.exemptions then 1 else WORD32
    ensures Reached(cfg, s, t, scope)
    ensures PositionOf(s, t).position == scope.limits.maxPosition + 1
  {
    hide Reached, Staged, Part, Size;
    var l := scope.limits;
    var plan := Plan(t, 1, l.maxOrderQty);
    OneToBuy(plan);
    s := Leave(cfg, plan, WORD32 - 1, scope);
    s := QueueNext(cfg, s, plan, 0, 0, StartOf(scope), scope);
    s := Climb(cfg, s, plan, 0, 1, StartOf(scope), scope);
    s := FillRest(cfg, s, plan, 0, 1, l.maxPosition, scope);
  }

  // ---------------------------------------------------------------- an example

  /** Orders of up to half a word, four of them open, and a limit four times their size. */
  const HALF: Qty := 0x8000_0000
  const WIDE: RiskLimits := RiskLimits(HALF, 4 * HALF, 0, 4)

  /** Two buys wrap the open quantity to zero. One is filled, three more get through, and the
      four that are open then are filled as well. */
  function WrappingRun(t: TickerId): seq<Event> {
    [LimitsChanged(SetFor(t, WIDE)),
     SubmitAt(t, Buy, HALF, 1), SubmitAt(t, Buy, HALF, 2), FillAt(t, 1, HALF),
     SubmitAt(t, Buy, HALF, 3), SubmitAt(t, Buy, HALF, 4), SubmitAt(t, Buy, HALF, 5),
     FillAt(t, 2, HALF), FillAt(t, 3, HALF), FillAt(t, 4, HALF), FillAt(t, 5, HALF)]
  }

  /** All the open orders allowed come to no more than the position limit, no order is exempt
      and nothing is reset; still the position ends a quarter above the limit. */
  lemma WrappingRunOvershoots(cfg: Config, t: TickerId)
    ensures OpenCapacity(WIDE) <= WIDE.maxPosition
    ensures InScope(cfg, WrappingRun(t), t, Scope(WIDE, false, false))
    ensures PositionOf(Run(cfg, WrappingRun(t)), t).position == 5 * HALF > WIDE.maxPosition
  {
    hide Ready, InScope, Run, Staged, OpenQty, Part, Opened;
    var plan, scope := Plan(t, 5 * HALF, HALF), Scope(WIDE, false, false);
    forall i: nat | 1 <= i <= 5 ensures Size(plan.total, HALF, i) == HALF { HalfWordOrders(i); }
    OpeningIsReady(cfg, t, scope);
    OpenedStaged(cfg, plan, scope);
    var es := QueueOn(cfg, [Opening(t, scope)], plan, 0, 0, 0, scope);
    es := QueueOn(cfg, es, plan, 0, 1, 0, scope);
    es := FillOn(cfg, es, plan, 0, 2, 0, scope);
    es := QueueOn(cfg, es, plan, 1, 2, HALF, scope);
    es := QueueOn(cfg, es, plan, 1, 3, HALF, scope);
    es := QueueOn(cfg, es, plan, 1, 4, HALF, scope);
    es := FillOn(cfg, es, plan, 1, 5, HALF, scope);
    es := FillOn(cfg, es, plan, 2, 5, 2 * HALF, scope);
    es := FillOn(cfg, es, plan, 3, 5, 3 * HALF, scope);
    es := FillOn(cfg, es, plan, 4, 5, 4 * HALF, scope);
    assert es == WrappingRun(t);
    ReadyInScope(cfg, es, t, scope);
    StagedPosition(Run(cfg, es), plan, 5, 5, 5 * HALF);
  }

  lemma HalfWordOrders(i: nat)
    requires 1 <= i <= 5
    ensures Size(5 * HALF, HALF, i) == HALF
  {
  }

  lemma OpenedStaged(cfg: Config, plan: Plan, scope: Scope)
    ensures var s := Opened(cfg, plan.ticker, scope);
      Staged(s, plan, 0, 0, 0) && OpenQty(s, plan.ticker, Buy) == 0
  {
    hide OrderOf;
  }

  lemma StagedPosition(s: EngineState, plan: Plan, lo: nat, hi: nat, p: int)
    requires Staged(s, plan, lo, hi, p)
    ensures PositionOf(s, plan.ticker).position == p
  {
    hide OrderOf;
  }

  // ---------------------------------------------------------------- the classification

  /** The limit is kept in all runs whose limits may change up to those of the scope. */
  ghost predicate LimitKept(cfg: Config, t: TickerId, scope: Scope) {
    forall es | UnderScope(cfg, es, t, scope) ::
      Abs(PositionOf(Run(cfg, es), t).position) <= scope.limits.maxPosition
  }

  /** The limit is kept in all runs whose limits are those of the scope throughout. */
  ghost predicate FixedLimitKept(cfg: Config, t: TickerId, scope: Scope) {
    forall es | InScope(cfg, es, t, scope) ::
      Abs(PositionOf(Run(cfg, es), t).position) <= scope.limits.maxPosition
  }

  /** Limits under which the open quantities the checks see cannot wrap, or do not matter. */
  predicate WordsSuffice(l: RiskLimits, resets: bool) {
    if resets then l.maxOpenOrders <= 1 || l.maxOrderQty == 0 else OpenCapacity(l) < WORD32
  }

  predicate SafeLimits(l: RiskLimits, scope: Scope) {
    && l.maxPosition >= 0
    && (|| Frozen(l)
        || if scope.exemptions then OpenCapacity(l) <= l.maxPosition + 1 && WordsSuffice(l, scope.resets)
           else l.maxPosition < WORD32 || WordsSuffice(l, scope.resets))
  }

  lemma SafeLimitsKeep(cfg: Config, es: seq<Event>, t: TickerId, scope: Scope)
    requires cfg.enableRiskChecks && UnderScope(cfg, es, t, scope) && SafeLimits(scope.limits, scope)
    ensures Abs(PositionOf(Run(cfg, es), t).position) <= scope.limits.maxPosition
  {
    hide Run, WellFormedRun, Capped, NeverExempt, NoReset, Within, FittingRun, OpenCapacity;
    var l := scope.limits;
    if Frozen(l) {
      FrozenStaysDormant(cfg, es, t, l);
    } else if scope.resets && (scope.exemptions || l.maxPosition >= WORD32) {
      SmallCapacity(l);
      OneOrderStaysWithin(cfg, es, t, l, ExposureLimit(l));
      WithinMeans(Run(cfg, es), t, ExposureLimit(l));
    } else if scope.exemptions {
      ExposureBound(cfg, es, t, l);
    } else {
      LimitHoldsWithoutExemption(cfg, es, t, l);
    }
  }

  lemma SmallCapacity(l: RiskLimits)
    requires WordsSuffice(l, true)
    ensures OpenCapacity(l) < WORD32
  {
  }

  lemma UnsafeLimitsFail(cfg: Config, t: TickerId, scope: Scope) returns (s: EngineState)
    requires !SafeLimits(scope.limits, scope)
    ensures Reached(cfg, s, t, scope) && Abs(PositionOf(s, t).position) > scope.limits.maxPosition
  {
    hide Reached;
    var l := scope.limits;
    if l.maxPosition < 0 {
      ReachStart(cfg, t, scope);
      s := Opened(cfg, t, scope);
    } else if scope.exemptions && OpenCapacity(l) > l.maxPosition + 1 {
      s := BoundIsReached(cfg, t, scope);
    } else if scope.resets {
      s := HiddenByResets(cfg, t, scope);
    } else {
      s := HiddenByWrapping(cfg, t, scope);
    }
  }

  /** Over runs of any of the four kinds, the checks keep |position| within max_position
      exactly under these limits, whether the limits are fixed or may change below them. */
  lemma LimitKeptIff(cfg: Config, t: TickerId, scope: Scope)
    requires cfg.enableRiskChecks
    ensures LimitKept(cfg, t, scope) <==> SafeLimits(scope.limits, scope)
    ensures FixedLimitKept(cfg, t, scope) <==> SafeLimits(scope.limits, scope)
  {
    hide Run, InScope, SafeLimits, UnderScope;
    if SafeLimits(scope.limits, scope) {
      forall es | UnderScope(cfg, es, t, scope)
        ensures Abs(PositionOf(Run(cfg, es), t).position) <= scope.limits.maxPosition
      {
        SafeLimitsKeep(cfg, es, t, scope);
      }
      forall es | InScope(cfg, es, t, scope) ensures UnderScope(cfg, es, t, scope) {
        InScopeIsUnder(cfg, es, t, scope);
      }
    } else {
      var s := UnsafeLimitsFail(cfg, t, scope);
      var es :| Ready(cfg, es, t, scope) && Run(cfg, es) == s;
      InScopeIsUnder(cfg, es, t, scope);
      assert Abs(PositionOf(Run(cfg, es), t).position) > scope.limits.maxPosition;
    }
  }

  lemma InScopeIsUnder(cfg: Config, es: seq<Event>, t: TickerId, scope: Scope)
    requires InScope(cfg, es, t, scope)
    ensures UnderScope(cfg, es, t, scope)
  {
    hide OfKind, Fixed;
    FixedIsCapped(cfg, es, t, scope.limits);
  }

  // ---------------------------------------------------------------- when the counters agree

  ghost predicate AgreementKept(cfg: Config, t: TickerId, l: RiskLimits) {
    forall es | UnderScope(cfg, es, t, Scope(l, false, true)) :: AgreesAt(Run(cfg, es), t)
  }

  lemma FrozenAgrees(cfg: Config, es: seq<Event>, t: TickerId, l: RiskLimits)
    requires cfg.enableRiskChecks && WellFormedRun(cfg, es) && Capped(cfg, es, t, l) && Frozen(l)
    ensures AgreesAt(Run(cfg, es), t)
  {
    hide Run, WellFormedRun, Capped, TrackedQty, TrackedCount;
    CountsAgree(cfg, es, t);
    FrozenStaysDormant(cfg, es, t, l);
  }

  /** A whole word of open orders shows as an open quantity of zero. */
  lemma WrappingDisagrees(cfg: Config, t: TickerId, l: RiskLimits) returns (s: EngineState)
    requires !Frozen(l) && OpenCapacity(l) >= WORD32
    ensures Reached(cfg, s, t, Scope(l, false, true)) && !AgreesAt(s, t)
  {
    hide Reached, TrackedQty, TrackedCount;
    var plan := Plan(t, WORD32, l.maxOrderQty);
    s := QueueAll(cfg, plan, l.maxOpenOrders, Scope(l, false, true));
    assert 1 in s.pending && s.pending[1] == OrderOf(plan, 1);
    TrackedCovers(s, 1);
  }

  /** With risk checks on and without reset, the counters of a ticker agree with its tracked
      orders in every run exactly if all the open orders allowed fit a 32-bit word, or no
      order of positive quantity ever gets through. */
  lemma AgreementKeptIff(cfg: Config, t: TickerId, l: RiskLimits)
    requires cfg.enableRiskChecks
    ensures AgreementKept(cfg, t, l) <==> OpenCapacity(l) < WORD32 || Frozen(l)
  {
    hide Run, WellFormedRun, AgreesAt, Frozen, OpenCapacity, NoReset, FittingRun, Capped, InScope;
    var scope := Scope(l, false, true);
    if Frozen(l) {
      forall es | UnderScope(cfg, es, t, scope) ensures AgreesAt(Run(cfg, es), t) {
        FrozenAgrees(cfg, es, t, l);
      }
    } else if OpenCapacity(l) < WORD32 {
      forall es | UnderScope(cfg, es, t, scope) ensures AgreesAt(Run(cfg, es), t) {
        LimitsFit(cfg, es, t, l);
        CountersAgree(cfg, es, t);
      }
    } else {
      var s := WrappingDisagrees(cfg, t, l);
      var es :| Ready(cfg, es, t, scope) && Run(cfg, es) == s;
      InScopeIsUnder(cfg, es, t, scope);
    }
  }
}
