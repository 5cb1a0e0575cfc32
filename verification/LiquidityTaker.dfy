/** The rate limiter of the liquidity taker (`trading/src/strategies/liquidity_taker.rs`).

    The floating point parts are inputs: whether the signal is beyond either threshold, the
    quantity it scales to, and the effect of the cooldown factor on the interval. */
module LiquidityTaker {
  import opened Types
  import opened Arithmetic

  /** `cooldown` multiplies an interval by the cooldown factor. */
  datatype TakerConfig = TakerConfig(minInterval: nat, maxPosition: int, cooldown: nat -> nat)

  /** What one call of `on_features` is given. */
  datatype Features = Features(time: nat, valid: bool, buySignal: bool, sellSignal: bool, buyQty: nat, sellQty: nat)

  datatype Action = Nothing | Take(side: Side)

  datatype TakerState = TakerState(lastOrder: nat, interval: nat, position: int, active: bool)

  function NewTaker(cfg: TakerConfig): TakerState {
    TakerState(0, cfg.minInterval, 0, true)
  }

  predicate CanSend(s: TakerState, time: nat) {
    s.lastOrder == 0 || time >= s.lastOrder + s.interval
  }

  predicate Blocked(cfg: TakerConfig, s: TakerState, side: Side) {
    cfg.maxPosition > 0 && if side.Buy? then s.position >= cfg.maxPosition else s.position <= -cfg.maxPosition
  }

  /** What the strategy does with the features. A blocked buy also stops a sell. */
  function Decide(cfg: TakerConfig, s: TakerState, f: Features): Action {
    if !s.active || !f.valid || !CanSend(s, f.time) then Nothing
    else if f.buySignal && Blocked(cfg, s, Buy) then Nothing
    else if f.buySignal && f.buyQty > 0 then Take(Buy)
    else if f.sellSignal && !Blocked(cfg, s, Sell) && f.sellQty > 0 then Take(Sell)
    else Nothing
  }

  function Record(cfg: TakerConfig, s: TakerState, time: nat): TakerState {
    s.(lastOrder := time, interval := Min(cfg.cooldown(s.interval), cfg.minInterval * 10))
  }

  function Relax(cfg: TakerConfig, s: TakerState): TakerState {
    s.(interval := Max(s.interval / 2, cfg.minInterval))
  }

  function Uncooled(cfg: TakerConfig, s: TakerState): TakerState {
    s.(interval := cfg.minInterval)
  }

  class LiquidityTaker {
    const cfg: TakerConfig
    var lastOrder: nat
    var interval: nat
    var position: int
    var active: bool

    function State(): TakerState
      reads this
    {
      TakerState(lastOrder, interval, position, active)
    }

    constructor (cfg: TakerConfig)
      ensures this.cfg == cfg && State() == NewTaker(cfg)
    {
      this.cfg := cfg;
      lastOrder, interval, position, active := 0, cfg.minInterval, 0, true;
    }

    method OnFeatures(f: Features) returns (action: Action)
      modifies this
      ensures action == Decide(cfg, old(State()), f)
      ensures State() == if action.Take? then Record(cfg, old(State()), f.time) else old(State())
    {
      if !active || !f.valid || !CanSend(State(), f.time) {
        return Nothing;
      }
      if f.buySignal {
        if cfg.maxPosition > 0 && position >= cfg.maxPosition {
          return Nothing;
        }
        if f.buyQty != 0 {
          RecordOrder(f.time);
          return Take(Buy);
        }
      }
      if f.sellSignal {
        if cfg.maxPosition > 0 && position <= -cfg.maxPosition {
          return Nothing;
        }
        if f.sellQty != 0 {
          RecordOrder(f.time);
          return Take(Sell);
        }
      }
      return Nothing;
    }

    method RecordOrder(time: nat)
      modifies this
      ensures State() == Record(cfg, old(State()), time)
    {
      lastOrder := time;
      interval := Min(cfg.cooldown(interval), cfg.minInterval * 10);
    }

    method OnFill()
      modifies this
      ensures State() == Relax(cfg, old(State()))
    {
      interval := interval / 2;
      interval := Max(interval, cfg.minInterval);
    }

    method ResetCooldown()
      modifies this
      ensures State() == Uncooled(cfg, old(State()))
    {
      interval := cfg.minInterval;
    }
  }

  // ---------------------------------------------------------------- runs

  datatype Event =
    | Saw(features: Features)
    | GotFill
    | CooldownReset
    | Positioned(position: int)
    | Activated(active: bool)

  function Apply(cfg: TakerConfig, s: TakerState, e: Event): TakerState {
    match e
    case Saw(f) => if Decide(cfg, s, f).Take? then Record(cfg, s, f.time) else s
    case GotFill => Relax(cfg, s)
    case CooldownReset => Uncooled(cfg, s)
    case Positioned(p) => s.(position := p)
    case Activated(a) => s.(active := a)
  }

  function Run(cfg: TakerConfig, es: seq<Event>): TakerState {
    if es == [] then NewTaker(cfg) else Apply(cfg, Run(cfg, es[..|es| - 1]), es[|es| - 1])
  }

  /** The times of the orders sent. */
  function Takes(cfg: TakerConfig, es: seq<Event>): seq<nat> {
    if es == [] then []
    else
      var before, e := es[..|es| - 1], es[|es| - 1];
      Takes(cfg, before) + if e.Saw? && Decide(cfg, Run(cfg, before), e.features).Take? then [e.features.time] else []
  }

  /** Time is positive; the taker uses zero for "never". */
  predicate PositiveTimes(es: seq<Event>) {
    forall i | 0 <= i < |es| && es[i].Saw? :: es[i].features.time > 0
  }

  /** A cooldown factor of at least one. */
  ghost predicate Cools(cfg: TakerConfig) {
    forall x: nat :: cfg.cooldown(x) >= x
  }

  /** Each order comes at least gap after the one before. */
  predicate Spaced(ts: seq<nat>, gap: nat) {
    forall i | 0 < i < |ts| :: ts[i] >= ts[i - 1] + gap
  }

  /** The taker remembers its last order and keeps its interval in range. */
  ghost predicate Paced(cfg: TakerConfig, s: TakerState, ts: seq<nat>) {
    && cfg.minInterval <= s.interval <= 10 * cfg.minInterval
    && s.lastOrder == (if ts == [] then 0 else ts[|ts| - 1])
    && (ts != [] ==> s.lastOrder > 0)
    && Spaced(ts, cfg.minInterval)
  }

  lemma TakeKeepsPace(cfg: TakerConfig, s: TakerState, ts: seq<nat>, time: nat)
    requires Cools(cfg) && Paced(cfg, s, ts) && CanSend(s, time) && time > 0
    ensures Paced(cfg, Record(cfg, s, time), ts + [time])
  {
    assert cfg.cooldown(s.interval) >= s.interval;
    var ts' := ts + [time];
    forall i | 0 < i < |ts'| ensures ts'[i] >= ts'[i - 1] + cfg.minInterval {
      if i < |ts| { assert ts'[i] == ts[i] && ts'[i - 1] == ts[i - 1]; }
    }
  }

  /** Under any mix of signals, fills and cooldown resets the interval stays between one and
      ten times the minimum, and successive orders are at least the minimum apart. */
  lemma {:induction false} OrdersAreSpaced(cfg: TakerConfig, es: seq<Event>)
    requires Cools(cfg) && PositiveTimes(es)
    ensures cfg.minInterval <= Run(cfg, es).interval <= 10 * cfg.minInterval
    ensures Spaced(Takes(cfg, es), cfg.minInterval)
    ensures Paced(cfg, Run(cfg, es), Takes(cfg, es))
  {
    hide Spaced, Record, CanSend, Blocked;
    if es == [] {
      StartsPaced(cfg);
    } else {
      var before, e := es[..|es| - 1], es[|es| - 1];
      OrdersAreSpaced(cfg, before);
      if e.Saw? && Decide(cfg, Run(cfg, before), e.features).Take? {
        TakeKeepsPace(cfg, Run(cfg, before), Takes(cfg, before), e.features.time);
      } else {
        assert Takes(cfg, before) + [] == Takes(cfg, before);
      }
    }
  }

  lemma StartsPaced(cfg: TakerConfig)
    ensures Paced(cfg, NewTaker(cfg), [])
  {
  }

  /** How many of the times lie between lo and hi. */
  function CountBetween(ts: seq<nat>, lo: nat, hi: nat): nat {
    if ts == [] then 0
    else CountBetween(ts[..|ts| - 1], lo, hi) + if lo <= ts[|ts| - 1] <= hi then 1 else 0
  }

  /** The last of the times is the largest, and c of them between lo and hi reach at least
      c - 1 gaps past lo. */
  lemma {:induction false} CountedTimesSpread(ts: seq<nat>, gap: nat, lo: nat, hi: nat)
    requires Spaced(ts, gap) && CountBetween(ts, lo, hi) > 0
    ensures ts[|ts| - 1] >= lo
    ensures (CountBetween(ts, lo, hi) - 1) * gap <= Min(ts[|ts| - 1], hi) - lo
  {
    var before, x := ts[..|ts| - 1], ts[|ts| - 1];
    var c := CountBetween(before, lo, hi);
    if c == 0 {
    } else {
      CountedTimesSpread(before, gap, lo, hi);
      assert x >= before[|before| - 1] + gap;
      assert (c - 1) * gap + gap == c * gap;
    }
  }

  /** Any closed window of length w sees at most w / min + 1 orders. */
  lemma WindowLimit(cfg: TakerConfig, es: seq<Event>, start: nat, w: nat)
    requires Cools(cfg) && PositiveTimes(es) && cfg.minInterval > 0
    ensures CountBetween(Takes(cfg, es), start, start + w) <= w / cfg.minInterval + 1
  {
    hide Run, Takes, CountBetween;
    OrdersAreSpaced(cfg, es);
    var c, gap := CountBetween(Takes(cfg, es), start, start + w), cfg.minInterval;
    if c > 0 {
      CountedTimesSpread(Takes(cfg, es), gap, start, start + w);
      QuotientAtLeast(c - 1, gap, w);
    }
  }

  lemma QuotientAtLeast(c: nat, gap: nat, w: nat)
    requires gap > 0 && c * gap <= w
    ensures c <= w / gap
  {
    var q := w / gap;
    if q < c { MulLe(q + 1, c, gap); }
  }

  // ---------------------------------------------------------------- which side, and how long

  /** The position last reported. */
  function PositionAfter(es: seq<Event>): int {
    if es == [] then 0
    else if es[|es| - 1].Positioned? then es[|es| - 1].position
    else PositionAfter(es[..|es| - 1])
  }

  function ActiveAfter(es: seq<Event>): bool {
    if es == [] then true
    else if es[|es| - 1].Activated? then es[|es| - 1].active
    else ActiveAfter(es[..|es| - 1])
  }

  lemma {:induction false} StateIs(cfg: TakerConfig, es: seq<Event>)
    requires PositiveTimes(es)
    ensures var s, ts := Run(cfg, es), Takes(cfg, es);
      && s.position == PositionAfter(es) && s.active == ActiveAfter(es)
      && s.lastOrder == (if ts == [] then 0 else ts[|ts| - 1]) && (ts != [] ==> s.lastOrder > 0)
  {
    hide Decide;
    if es == [] {
    } else {
      StateIs(cfg, es[..|es| - 1]);
    }
  }

  /** Over every run: the taker buys exactly if it is active, the features are valid, its last
      order is an interval back, the buy signal is up with a quantity and the position last
      reported is below the limit; it sells likewise, unless the buy signal is up and either
      has a quantity or is blocked. */
  lemma TakesSide(cfg: TakerConfig, es: seq<Event>, f: Features)
    requires PositiveTimes(es)
    ensures var ts, interval, position := Takes(cfg, es), Run(cfg, es).interval, PositionAfter(es);
      var ready := ActiveAfter(es) && f.valid && (ts == [] || f.time >= ts[|ts| - 1] + interval);
      var long, short := cfg.maxPosition > 0 && position >= cfg.maxPosition,
                         cfg.maxPosition > 0 && position <= -cfg.maxPosition;
      var action := Decide(cfg, Run(cfg, es), f);
      && (action == Take(Buy) <==> ready && f.buySignal && f.buyQty > 0 && !long)
      && (action == Take(Sell) <==>
            ready && f.sellSignal && f.sellQty > 0 && !short && !(f.buySignal && (f.buyQty > 0 || long)))
  {
    hide Run, Takes, PositionAfter, ActiveAfter;
    StateIs(cfg, es);
  }

  function Fills(k: nat): seq<Event> {
    seq(k, _ => GotFill)
  }

  lemma HalvesFloor(x: nat, m: nat)
    ensures Max(Max(x, m) / 2, m) == Max(x / 2, m)
  {
  }

  lemma HalfOfQuotient(x: nat, m: nat)
    requires m > 0
    ensures (x / m) / 2 == x / (2 * m)
  {
    var q, r := x / m, x % m;
    assert x == m * q + r;
    var b := q % 2;
    assert q == 2 * (q / 2) + b && m * q == (2 * m) * (q / 2) + m * b;
    ModUnique(x, 2 * m, q / 2, m * b + r);
  }

  /** After k fills in a row the interval is what it was over 2^k, but not below the minimum. */
  lemma {:induction false} FillsRelax(cfg: TakerConfig, es: seq<Event>, k: nat)
    requires Cools(cfg) && PositiveTimes(es)
    ensures Run(cfg, es + Fills(k)).interval == Max(Run(cfg, es).interval / Pow2(k), cfg.minInterval)
    decreases k
  {
    if k == 0 {
      assert es + Fills(0) == es;
      OrdersAreSpaced(cfg, es);
    } else {
      hide Run, Pow2;
      FillsRelax(cfg, es, k - 1);
      OneMoreFill(cfg, es + Fills(k - 1));
      assert es + Fills(k) == es + Fills(k - 1) + [GotFill];
      var x := Run(cfg, es).interval;
      HalvesFloor(x / Pow2(k - 1), cfg.minInterval);
      HalfOfQuotient(x, Pow2(k - 1));
      Pow2Add(1, k - 1);
      Pow2One();
    }
  }

  lemma Pow2One()
    ensures Pow2(1) == 2
  {
  }

  lemma OneMoreFill(cfg: TakerConfig, es: seq<Event>)
    ensures Run(cfg, es + [GotFill]).interval == Max(Run(cfg, es).interval / 2, cfg.minInterval)
  {
    assert (es + [GotFill])[..|es|] == es;
  }

  /** An order is recorded with its time and lengthens the interval by the cooldown, up to ten
      times the minimum. */
  lemma OrderCools(cfg: TakerConfig, es: seq<Event>, f: Features)
    requires Decide(cfg, Run(cfg, es), f).Take?
    ensures Run(cfg, es + [Saw(f)]).interval == Min(cfg.cooldown(Run(cfg, es).interval), 10 * cfg.minInterval)
    ensures Takes(cfg, es + [Saw(f)]) == Takes(cfg, es) + [f.time]
  {
    hide Decide;
    assert (es + [Saw(f)])[..|es|] == es;
  }
}
