/** The order book of one ticker (`exchange/src/order_book.rs`): an id index into a pool of
    order records, and per-price aggregates for each side.

    What the book stands for is the set of its live orders. The links between orders of a
    level are kept as the source keeps them: a new order points back to the level's last
    slot, nothing ever points forward, and cancelling writes through the back link even if
    that slot has been freed or reused since. */
module OrderBook {
  import opened Types
  import opened MapSum
  import opened MemPool

  const POOL_CAPACITY: nat := 65536

  datatype LiveOrder = LiveOrder(
    client: ClientId, ticker: TickerId, side: Side, price: Price, qty: Qty, priority: Priority)

  type Live = map<OrderId, LiveOrder>

  /** A record in the pool. */
  datatype Order = Order(id: OrderId, core: LiveOrder, prev: Option<nat>, next: Option<nat>)

  datatype PriceLevel = PriceLevel(price: Price, totalQty: Qty, head: Option<nat>, tail: Option<nat>, orderCount: nat)

  type Levels = map<Price, PriceLevel>

  // ---------------------------------------------------------------- what a book stands for

  datatype BookModel = BookModel(live: Live, nextPriority: Priority)

  function EmptyBook(): BookModel {
    BookModel(map[], 1)
  }

  function NextPriority(p: Priority): Priority {
    (p + 1) % WORD64
  }

  /** An add fails on an id in use or with every pool slot taken. */
  predicate CanAdd(b: BookModel, id: OrderId) {
    id !in b.live && |b.live| < POOL_CAPACITY
  }

  function AddTo(b: BookModel, id: OrderId, client: ClientId, ticker: TickerId, side: Side, price: Price, qty: Qty):
    BookModel
  {
    if !CanAdd(b, id) then b
    else
      var order := LiveOrder(client, ticker, side, price, qty, b.nextPriority);
      BookModel(b.live[id := order], NextPriority(b.nextPriority))
  }

  function CancelFrom(b: BookModel, id: OrderId): BookModel {
    b.(live := b.live - {id})
  }

  // ---------------------------------------------------------------- aggregates

  function CountAt(side: Side, price: Price): LiveOrder -> int {
    (o: LiveOrder) => if o.side == side && o.price == price then 1 else 0
  }

  function QtyAt(side: Side, price: Price): LiveOrder -> int {
    (o: LiveOrder) => if o.side == side && o.price == price then o.qty else 0
  }

  /** The number of live orders on a side at a price. */
  ghost function OrdersAt(live: Live, side: Side, price: Price): int {
    Sum(live, CountAt(side, price))
  }

  ghost function TotalQtyAt(live: Live, side: Side, price: Price): int {
    Sum(live, QtyAt(side, price))
  }

  ghost predicate LevelAgrees(levels: Levels, side: Side, live: Live, price: Price) {
    && (price in levels <==> OrdersAt(live, side, price) > 0)
    && (price in levels ==>
          && levels[price].price == price
          && levels[price].orderCount == OrdersAt(live, side, price)
          && levels[price].totalQty == TotalQtyAt(live, side, price) % WORD32)
  }

  /** A level exists at a price exactly when live orders do, and carries their number and
      their total quantity (as a 32-bit word). */
  ghost predicate LevelsAgree(levels: Levels, side: Side, live: Live) {
    forall price: Price :: LevelAgrees(levels, side, live, price)
  }

  lemma OrdersAtNonNegative(live: Live, side: Side, price: Price)
    ensures OrdersAt(live, side, price) >= 0
  {
    SumNonNegative(live, CountAt(side, price));
  }

  /** The live order id quotes a price on a side. */
  ghost predicate Quotes(live: Live, id: OrderId, side: Side, price: Price) {
    id in live && live[id].side == side && live[id].price == price
  }

  /** There are orders at a price exactly when some live order is there. */
  lemma OrdersAtWitness(live: Live, side: Side, price: Price)
    ensures OrdersAt(live, side, price) > 0 <==>
      exists id :: Quotes(live, id, side, price)
  {
    if OrdersAt(live, side, price) > 0 {
      var id := SumPositive(live, CountAt(side, price));
      assert Quotes(live, id, side, price);
    }
    if id :| Quotes(live, id, side, price) {
      SumAtLeast(live, id, CountAt(side, price));
    }
  }

  /** A level after one more order. */
  function Grown(levels: Levels, price: Price, qty: Qty, slot: nat): PriceLevel {
    var l := if price in levels then levels[price] else PriceLevel(price, 0, None, None, 0);
    PriceLevel(l.price, (l.totalQty + qty) % WORD32,
               if l.tail.Some? then l.head else Some(slot), Some(slot), l.orderCount + 1)
  }

  lemma GrownAgrees(levels: Levels, side: Side, live: Live, id: OrderId, o: LiveOrder, slot: nat)
    requires LevelsAgree(levels, side, live) && id !in live
    ensures LevelsAgree(if o.side == side then levels[o.price := Grown(levels, o.price, o.qty, slot)] else levels,
                        side, live[id := o])
  {
    hide LevelAgrees, Grown;
    var levels' := if o.side == side then levels[o.price := Grown(levels, o.price, o.qty, slot)] else levels;
    var live' := live[id := o];
    forall price: Price ensures LevelAgrees(levels', side, live', price) {
      assert LevelAgrees(levels, side, live, price);
      GrownAgreesAt(levels, side, live, id, o, slot, price);
    }
  }

  lemma GrownAgreesAt(levels: Levels, side: Side, live: Live, id: OrderId, o: LiveOrder, slot: nat, price: Price)
    requires LevelAgrees(levels, side, live, price) && id !in live
    ensures LevelAgrees(if o.side == side then levels[o.price := Grown(levels, o.price, o.qty, slot)] else levels,
                        side, live[id := o], price)
  {
    hide Sum;
    SumInsert(live, id, o, CountAt(side, price));
    SumInsert(live, id, o, QtyAt(side, price));
    OrdersAtNonNegative(live, side, price);
    if OrdersAt(live, side, price) == 0 {
      NoOrdersNoQty(live, side, price);
    }
    Mod32Add(TotalQtyAt(live, side, price), o.qty);
  }

  lemma Mod32Add(a: int, b: int)
    ensures (a % WORD32 + b) % WORD32 == (a + b) % WORD32
    ensures (a % WORD32 - b) % WORD32 == (a - b) % WORD32
  {
  }

  lemma NoOrdersNoQty(live: Live, side: Side, price: Price)
    requires OrdersAt(live, side, price) == 0
    ensures TotalQtyAt(live, side, price) == 0
  {
    OrdersAtWitness(live, side, price);
    forall id | id in live ensures QtyAt(side, price)(live[id]) <= 0 {
      assert !Quotes(live, id, side, price);
    }
    SumScaledBound(live, QtyAt(side, price), CountAt(side, price), 0);
    SumNonNegative(live, QtyAt(side, price));
  }

  /** The levels after an order at a price has gone; head and tail as given. */
  function Shrunk(levels: Levels, price: Price, qty: Qty, head: Option<nat>, tail: Option<nat>): Levels
    requires price in levels && levels[price].orderCount > 0
  {
    var l := levels[price];
    if l.orderCount == 1 then levels - {price}
    else levels[price := PriceLevel(l.price, (l.totalQty - qty) % WORD32, head, tail, l.orderCount - 1)]
  }

  lemma ShrunkAgrees(levels: Levels, side: Side, live: Live, id: OrderId, head: Option<nat>, tail: Option<nat>)
    requires LevelsAgree(levels, side, live) && id in live
    ensures live[id].side == side ==> live[id].price in levels && levels[live[id].price].orderCount > 0
    ensures var o := live[id];
      LevelsAgree(if o.side == side then Shrunk(levels, o.price, o.qty, head, tail) else levels, side, live - {id})
  {
    hide LevelAgrees, Shrunk;
    var o := live[id];
    if o.side == side {
      assert LevelAgrees(levels, side, live, o.price);
      LevelOfLiveOrder(levels, live, id);
    }
    var levels' := if o.side == side then Shrunk(levels, o.price, o.qty, head, tail) else levels;
    forall price: Price ensures LevelAgrees(levels', side, live - {id}, price) {
      assert LevelAgrees(levels, side, live, price);
      ShrunkAgreesAt(levels, side, live, id, head, tail, price);
    }
  }

  lemma LevelOfLiveOrder(levels: Levels, live: Live, id: OrderId)
    requires id in live && LevelAgrees(levels, live[id].side, live, live[id].price)
    ensures live[id].price in levels && levels[live[id].price].orderCount > 0
  {
    assert Quotes(live, id, live[id].side, live[id].price);
    OrdersAtWitness(live, live[id].side, live[id].price);
  }

  lemma ShrunkAgreesAt(levels: Levels, side: Side, live: Live, id: OrderId, head: Option<nat>, tail: Option<nat>,
                       price: Price)
    requires id in live && LevelAgrees(levels, side, live, price)
    requires live[id].side == side ==> live[id].price in levels && levels[live[id].price].orderCount > 0
    ensures var o := live[id];
      LevelAgrees(if o.side == side then Shrunk(levels, o.price, o.qty, head, tail) else levels,
                  side, live - {id}, price)
  {
    hide Sum;
    SumRemove(live, id, CountAt(side, price));
    SumRemove(live, id, QtyAt(side, price));
    OrdersAtNonNegative(live - {id}, side, price);
    Mod32Add(TotalQtyAt(live, side, price), live[id].qty);
  }

  // ---------------------------------------------------------------- slots and records

  type Index = map<OrderId, nat>
  type Storage = seq<Option<Order>>

  /** The id index and the free stack share out the slots: none is in both or in neither,
      and no slot is indexed twice. */
  ghost predicate Partitioned(n: nat, stack: seq<nat>, index: Index) {
    && |stack| + |index| == n
    && (forall id | id in index :: index[id] < n && index[id] !in stack)
    && (forall a, b | a in index && b in index && a != b :: index[a] != index[b])
    && (forall slot: nat | slot < n :: slot in stack || slot in index.Values)
  }

  lemma PartitionTake(n: nat, stack: seq<nat>, index: Index, id: OrderId, slot: nat)
    requires Distinct(stack + [slot]) && slot < n && id !in index
    requires Partitioned(n, stack + [slot], index)
    ensures Partitioned(n, stack, index[id := slot])
  {
    var index' := index[id := slot];
    assert (stack + [slot])[|stack|] == slot;
    assert forall s | s in stack :: s in stack + [slot];
    assert slot !in stack by {
      forall i | 0 <= i < |stack| ensures stack[i] != slot { assert (stack + [slot])[i] == stack[i]; }
    }
    forall s: nat | s < n ensures s in stack || s in index'.Values {
      if s == slot {
        assert index'[id] == s;
      } else if s !in stack {
        assert s in index.Values;
        var a :| a in index && index[a] == s;
        assert index'[a] == s;
      }
    }
  }

  lemma PartitionReturn(n: nat, stack: seq<nat>, index: Index, id: OrderId)
    requires Partitioned(n, stack, index) && id in index
    ensures Partitioned(n, stack + [index[id]], index - {id})
  {
    var stack', index' := stack + [index[id]], index - {id};
    assert index'.Keys == index.Keys - {id};
    assert stack'[|stack|] == index[id];
    forall s: nat | s < n ensures s in stack' || s in index'.Values {
      if s in stack {
        var i :| 0 <= i < |stack| && stack[i] == s;
        assert stack'[i] == s;
      } else {
        var a :| a in index && index[a] == s;
        if a != id { assert index'[a] == s; }
      }
    }
  }

  /** Each indexed slot holds the live order of that id. */
  ghost predicate Recorded(storage: Storage, index: Index, live: Live) {
    && index.Keys == live.Keys
    && forall id | id in index ::
         && index[id] < |storage| && storage[index[id]].Some?
         && storage[index[id]].value.id == id && storage[index[id]].value.core == live[id]
  }

  lemma RecordedAdd(storage: Storage, index: Index, live: Live, slot: nat, order: Order)
    requires Recorded(storage, index, live) && slot < |storage|
    requires forall id | id in index :: index[id] != slot
    ensures Recorded(storage[slot := Some(order)], index[order.id := slot], live[order.id := order.core])
  {
  }

  lemma RecordedRemove(storage: Storage, index: Index, live: Live, id: OrderId)
    requires Recorded(storage, index, live)
    ensures Recorded(storage, index - {id}, live - {id})
  {
  }

  /** Rewriting the forward link of any record, whoever owns it now, leaves every live order as it was. */
  lemma RecordedRelink(storage: Storage, index: Index, live: Live, slot: nat, next: Option<nat>)
    requires Recorded(storage, index, live) && slot < |storage| && storage[slot].Some?
    ensures Recorded(storage[slot := Some(storage[slot].value.(next := next))], index, live)
  {
  }

  ghost predicate Written(storage: Storage, link: Option<nat>) {
    link.Some? ==> link.value < |storage| && storage[link.value].Some?
  }

  /** Nothing points forward, and whatever is pointed back to has been written. */
  ghost predicate BackLinksOnly(storage: Storage) {
    forall i | 0 <= i < |storage| && storage[i].Some? ::
      storage[i].value.next == None && Written(storage, storage[i].value.prev)
  }

  ghost predicate TailsWritten(storage: Storage, levels: Levels) {
    forall p | p in levels :: Written(storage, levels[p].tail)
  }

  lemma LinksAfterWrite(storage: Storage, bids: Levels, asks: Levels, slot: nat, order: Order)
    requires BackLinksOnly(storage) && TailsWritten(storage, bids) && TailsWritten(storage, asks)
    requires slot < |storage| && order.next == None && Written(storage, order.prev)
    ensures var storage' := storage[slot := Some(order)];
      BackLinksOnly(storage') && TailsWritten(storage', bids) && TailsWritten(storage', asks)
  {
  }

  /** Everything a book keeps agrees with its live orders. */
  ghost predicate Agrees(
    n: nat, stack: seq<nat>, storage: Storage, index: Index, live: Live, bids: Levels, asks: Levels) {
    && n == |storage|
    && Partitioned(n, stack, index) && Recorded(storage, index, live)
    && BackLinksOnly(storage) && TailsWritten(storage, bids) && TailsWritten(storage, asks)
    && LevelsAgree(bids, Buy, live) && LevelsAgree(asks, Sell, live)
  }

  // ---------------------------------------------------------------- the object

  class OrderBook {
    const ticker: TickerId
    const pool: MemPool<Order>
    var bidLevels: Levels
    var askLevels: Levels
    var orderMap: Index
    var nextPriority: Priority
    ghost var live: Live

    ghost function Repr(): set<object> {
      {this, pool, pool.storage, pool.freeList}
    }

    ghost function Model(): BookModel
      reads this
    {
      BookModel(live, nextPriority)
    }

    ghost predicate Valid()
      reads this, pool, pool.storage, pool.freeList
    {
      && pool.Valid() && pool.n == POOL_CAPACITY
      && Agrees(pool.n, pool.Stack(), pool.storage[..], orderMap, live, bidLevels, askLevels)
    }

    constructor (ticker: TickerId)
      ensures Valid() && this.ticker == ticker && fresh(Repr())
      ensures Model() == EmptyBook()
    {
      this.ticker := ticker;
      pool := new MemPool(POOL_CAPACITY);
      bidLevels, askLevels, orderMap, nextPriority, live := map[], map[], map[], 1, map[];
      new;
      hide Agrees, Distinct;
      EmptyAgrees(pool.n, pool.Stack(), pool.storage[..]);
    }

    /** Adds an order; fails exactly when the id is in use or all slots are taken. */
    method AddOrder(client: ClientId, id: OrderId, side: Side, price: Price, qty: Qty) returns (slot: Option<nat>)
      requires Valid()
      modifies this, pool, pool.storage
      ensures Valid()
      ensures slot.Some? <==> CanAdd(old(Model()), id)
      ensures Model() == AddTo(old(Model()), id, client, ticker, side, price, qty)
    {
      hide Agrees, Grown, Distinct, NextPriority;
      LiveSize(pool.n, pool.Stack(), pool.storage[..], orderMap, live, bidLevels, askLevels);
      if id in orderMap {
        return None;
      }
      slot := pool.Allocate();
      if slot.None? {
        return;
      }
      var index := slot.value;
      var core := LiveOrder(client, ticker, side, price, qty, nextPriority);
      nextPriority := NextPriority(nextPriority);
      var levels := if side == Buy then bidLevels else askLevels;
      var prev := if price in levels then levels[price].tail else None;
      var order := Order(id, core, prev, None);
      AddAgrees(pool.n, pool.Stack(), pool.storage[..], orderMap, live, bidLevels, askLevels, index, order);
      pool.Write(index, order);
      var level := Grown(levels, price, qty, index);
      if side == Buy {
        bidLevels := bidLevels[price := level];
      } else {
        askLevels := askLevels[price := level];
      }
      orderMap := orderMap[id := index];
      live := live[id := core];
    }

    method BestBid() returns (best: Option<Price>)
      requires Valid()
      ensures IsBest(live, Buy, best)
    {
      hide Agrees;
      var keys := bidLevels.Keys;
      best := None;
      while keys != {}
        invariant keys <= bidLevels.Keys
        invariant best.None? ==> keys == bidLevels.Keys
        invariant best.Some? ==> best.value in bidLevels && forall p | p in bidLevels && p !in keys :: p <= best.value
        decreases |keys|
      {
        var p :| p in keys;
        if best.None? || p > best.value {
          best := Some(p);
        }
        keys := keys - {p};
      }
      BestOfKeys(live, Buy, bidLevels.Keys, best) by { LevelPricesAreLivePrices(this); }
    }

    method BestAsk() returns (best: Option<Price>)
      requires Valid()
      ensures IsBest(live, Sell, best)
    {
      hide Agrees;
      var keys := askLevels.Keys;
      best := None;
      while keys != {}
        invariant keys <= askLevels.Keys
        invariant best.None? ==> keys == askLevels.Keys
        invariant best.Some? ==> best.value in askLevels && forall p | p in askLevels && p !in keys :: best.value <= p
        decreases |keys|
      {
        var p :| p in keys;
        if best.None? || p < best.value {
          best := Some(p);
        }
        keys := keys - {p};
      }
      BestOfKeys(live, Sell, askLevels.Keys, best) by { LevelPricesAreLivePrices(this); }
    }

    /** Takes an order out of its level's list: the write through its back link, and the
        level's new ends. */
    method Unlink(order: Order, level: PriceLevel) returns (head: Option<nat>, tail: Option<nat>)
      requires pool.Valid() && order.next == None && Written(pool.storage[..], order.prev)
      modifies pool.storage
      ensures pool.Valid() && pool.storage[..] == Relinked(old(pool.storage[..]), order.prev)
      ensures tail == order.prev && head == if order.prev.Some? then level.head else None
    {
      head := level.head;
      if order.prev.Some? {
        var prevOrder := pool.storage[order.prev.value].value;
        pool.Write(order.prev.value, prevOrder.(next := order.next));
      } else {
        head := order.next;
      }
      tail := level.tail;
      if order.next.Some? {
        assert false;
      } else {
        tail := order.prev;
      }
    }

    /** Cancels an order: exactly the named order goes, and is returned. */
    method CancelOrder(id: OrderId) returns (removed: Option<LiveOrder>)
      requires Valid()
      modifies this, pool, pool.storage, pool.freeList
      ensures Valid()
      ensures removed == if id in old(live) then Some(old(live)[id]) else None
      ensures Model() == CancelFrom(old(Model()), id)
    {
      hide Agrees, Distinct, Written;
      LiveSize(pool.n, pool.Stack(), pool.storage[..], orderMap, live, bidLevels, askLevels);
      if id !in orderMap {
        assert live - {id} == live;
        return None;
      }
      var order := FindOrder(id);
      RemoveOrder(id, order);
      return Some(order.core);
    }

    method FindOrder(id: OrderId) returns (order: Order)
      requires Valid() && id in orderMap
      ensures id in live && order.core == live[id] && order.next == None && Written(pool.storage[..], order.prev)
      ensures order.core.price in if order.core.side == Buy then bidLevels else askLevels
      ensures orderMap[id] < pool.n && orderMap[id] !in pool.Stack()
    {
      hide Agrees, Distinct;
      CancelFinds(pool.n, pool.Stack(), pool.storage[..], orderMap, live, bidLevels, askLevels, id);
      order := pool.storage[orderMap[id]].value;
    }

    method RemoveOrder(id: OrderId, order: Order)
      requires Valid() && id in orderMap && id in live && order.core == live[id]
      requires order.next == None && Written(pool.storage[..], order.prev)
      requires order.core.price in if order.core.side == Buy then bidLevels else askLevels
      requires orderMap[id] < pool.n && orderMap[id] !in pool.Stack()
      modifies this, pool, pool.storage, pool.freeList
      ensures Valid() && live == old(live) - {id} && nextPriority == old(nextPriority)
    {
      hide Agrees, Shrunk, Distinct, Relinked, Written;
      var index, core := orderMap[id], order.core;
      var levels := if core.side == Buy then bidLevels else askLevels;
      var head, tail := Unlink(order, levels[core.price]);
      CancelAgrees(pool.n, pool.Stack(), old(pool.storage[..]), orderMap, live, bidLevels, askLevels, id, tail, head);
      orderMap := orderMap - {id};
      var shrunk := Shrunk(levels, core.price, core.qty, head, tail);
      if core.side == Buy {
        bidLevels := shrunk;
      } else {
        askLevels := shrunk;
      }
      pool.DeallocateByIndex(index);
      live := live - {id};
    }
  }

  /** The best price on a side: the highest bid or the lowest ask among live orders. */
  ghost predicate IsBest(live: Live, side: Side, best: Option<Price>) {
    match best
    case None => forall id | id in live :: live[id].side != side
    case Some(p) =>
      && (exists id :: Quotes(live, id, side, p))
      && forall id | id in live && live[id].side == side ::
           if side == Buy then live[id].price <= p else p <= live[id].price
  }

  lemma BestOfKeys(live: Live, side: Side, keys: set<Price>, best: Option<Price>)
    requires forall p: Price :: p in keys <==> exists id :: Quotes(live, id, side, p)
    requires best.None? ==> keys == {}
    requires best.Some? ==> best.value in keys
    requires best.Some? ==> forall p | p in keys :: if side == Buy then p <= best.value else best.value <= p
    ensures IsBest(live, side, best)
  {
    forall id | id in live && live[id].side == side ensures live[id].price in keys {
      assert Quotes(live, id, side, live[id].price);
    }
  }

  /** What the invariant says about the two queries' key sets. */
  lemma LevelPricesAreLivePrices(book: OrderBook)
    requires book.Valid()
    ensures forall p: Price :: p in book.bidLevels <==> exists id :: Quotes(book.live, id, Buy, p)
    ensures forall p: Price :: p in book.askLevels <==> exists id :: Quotes(book.live, id, Sell, p)
  {
    hide Partitioned, Recorded, BackLinksOnly, TailsWritten, OrdersAt;
    forall p: Price ensures p in book.bidLevels <==> exists id :: Quotes(book.live, id, Buy, p) {
      assert LevelAgrees(book.bidLevels, Buy, book.live, p);
      OrdersAtWitness(book.live, Buy, p);
    }
    forall p: Price ensures p in book.askLevels <==> exists id :: Quotes(book.live, id, Sell, p) {
      assert LevelAgrees(book.askLevels, Sell, book.live, p);
      OrdersAtWitness(book.live, Sell, p);
    }
  }

  // ---------------------------------------------------------------- whole operations

  lemma EmptyAgrees(n: nat, stack: seq<nat>, storage: Storage)
    requires |stack| == n == |storage| && forall slot: nat | slot < n :: slot in stack
    requires forall i | 0 <= i < |storage| :: storage[i] == None
    ensures Agrees(n, stack, storage, map[], map[], map[], map[])
  {
  }

  lemma LiveSize(n: nat, stack: seq<nat>, storage: Storage, index: Index, live: Live, bids: Levels, asks: Levels)
    requires Agrees(n, stack, storage, index, live, bids, asks)
    ensures |stack| + |live| == n && index.Keys == live.Keys
  {
    hide BackLinksOnly, TailsWritten, LevelsAgree;
    assert |index| == |index.Keys| && |live| == |live.Keys|;
  }

  lemma AddAgrees(n: nat, stack: seq<nat>, storage: Storage, index: Index, live: Live, bids: Levels, asks: Levels,
                  slot: nat, order: Order)
    requires Distinct(stack + [slot]) && slot < n && order.id !in index
    requires Agrees(n, stack + [slot], storage, index, live, bids, asks)
    requires order.next == None
    requires var levels := if order.core.side == Buy then bids else asks;
      order.prev == if order.core.price in levels then levels[order.core.price].tail else None
    ensures var core := order.core;
      var bids' := if core.side == Buy then bids[core.price := Grown(bids, core.price, core.qty, slot)] else bids;
      var asks' := if core.side == Sell then asks[core.price := Grown(asks, core.price, core.qty, slot)] else asks;
      Agrees(n, stack, storage[slot := Some(order)], index[order.id := slot], live[order.id := core], bids', asks')
  {
    hide LevelsAgree, BackLinksOnly;
    PartitionTake(n, stack, index, order.id, slot);
    assert (stack + [slot])[|stack|] == slot;
    RecordedAdd(storage, index, live, slot, order);
    LinksAfterWrite(storage, bids, asks, slot, order);
    GrownAgrees(bids, Buy, live, order.id, order.core, slot);
    GrownAgrees(asks, Sell, live, order.id, order.core, slot);
  }

  /** What a cancel finds when it looks up a live order: the early exits are never taken. */
  lemma CancelFinds(n: nat, stack: seq<nat>, storage: Storage, index: Index, live: Live, bids: Levels, asks: Levels,
                    id: OrderId)
    requires id in index && Agrees(n, stack, storage, index, live, bids, asks)
    ensures id in live && index[id] < n && index[id] !in stack && storage[index[id]].Some?
    ensures var order := storage[index[id]].value;
      var levels := if order.core.side == Buy then bids else asks;
      && order.core == live[id] && order.next == None && Written(storage, order.prev)
      && order.core.price in levels && levels[order.core.price].orderCount > 0
  {
    hide LevelAgrees;
    var core := live[id];
    assert LevelAgrees(bids, Buy, live, core.price) && LevelAgrees(asks, Sell, live, core.price);
    LevelOfLiveOrder(if core.side == Buy then bids else asks, live, id);
  }

  /** The storage after the cancel's write through the back link. */
  function Relinked(storage: Storage, prev: Option<nat>): Storage {
    if prev.Some? && prev.value < |storage| && storage[prev.value].Some? then
      storage[prev.value := Some(storage[prev.value].value.(next := None))]
    else storage
  }

  lemma RelinkedAgrees(storage: Storage, index: Index, live: Live, bids: Levels, asks: Levels, prev: Option<nat>)
    requires Written(storage, prev) && Recorded(storage, index, live)
    requires BackLinksOnly(storage) && TailsWritten(storage, bids) && TailsWritten(storage, asks)
    ensures var storage' := Relinked(storage, prev);
      && Written(storage', prev) && Recorded(storage', index, live)
      && BackLinksOnly(storage') && TailsWritten(storage', bids) && TailsWritten(storage', asks)
  {
    hide Recorded, TailsWritten;
    if prev.Some? {
      RecordedRelink(storage, index, live, prev.value, None);
      LinksAfterWrite(storage, bids, asks, prev.value, storage[prev.value].value.(next := None));
    }
  }

  lemma ShrunkTails(storage: Storage, levels: Levels, price: Price, qty: Qty, head: Option<nat>, tail: Option<nat>)
    requires price in levels && levels[price].orderCount > 0
    requires TailsWritten(storage, levels) && Written(storage, tail)
    ensures TailsWritten(storage, Shrunk(levels, price, qty, head, tail))
  {
  }

  /** A cancel keeps every agreement, whatever its write through the back link hits. */
  lemma CancelAgrees(n: nat, stack: seq<nat>, storage: Storage, index: Index, live: Live, bids: Levels, asks: Levels,
                     id: OrderId, prev: Option<nat>, head: Option<nat>)
    requires id in index && id in live && Written(storage, prev)
    requires Agrees(n, stack, storage, index, live, bids, asks)
    ensures live[id].side == Buy ==> live[id].price in bids && bids[live[id].price].orderCount > 0
    ensures live[id].side == Sell ==> live[id].price in asks && asks[live[id].price].orderCount > 0
    ensures var core := live[id];
      var bids' := if core.side == Buy then Shrunk(bids, core.price, core.qty, head, prev) else bids;
      var asks' := if core.side == Sell then Shrunk(asks, core.price, core.qty, head, prev) else asks;
      Agrees(n, stack + [index[id]], Relinked(storage, prev), index - {id}, live - {id}, bids', asks')
  {
    hide Partitioned, Recorded, BackLinksOnly, TailsWritten, LevelsAgree, Shrunk;
    PartitionReturn(n, stack, index, id);
    RelinkedAgrees(storage, index, live, bids, asks, prev);
    RecordedRemove(Relinked(storage, prev), index, live, id);
    ShrunkAgrees(bids, Buy, live, id, head, prev);
    ShrunkAgrees(asks, Sell, live, id, head, prev);
    if live[id].side == Buy {
      ShrunkTails(Relinked(storage, prev), bids, live[id].price, live[id].qty, head, prev);
    } else {
      ShrunkTails(Relinked(storage, prev), asks, live[id].price, live[id].qty, head, prev);
    }
  }
}
