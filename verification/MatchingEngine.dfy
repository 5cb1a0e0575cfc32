/** The matching engine (`exchange/src/matching_engine.rs`): routes requests to the book of
    their ticker, assigns order ids, answers the client and publishes market updates.

    `Process` is the engine over live orders; the class runs the real books and is proved
    to do the same. */
module MatchingEngine {
  import opened Types
  import opened Protocol
  import opened OrderBook

  datatype EngineModel = EngineModel(books: map<TickerId, BookModel>, nextOrderId: OrderId)

  datatype Reply = Reply(response: ClientResponse, updates: seq<MarketUpdate>)

  function NewEngine(): EngineModel {
    EngineModel(map[], 1)
  }

  function AddTickerTo(m: EngineModel, ticker: TickerId): EngineModel {
    if ticker in m.books then m else m.(books := m.books[ticker := EmptyBook()])
  }

  function SideOf(code: i8): (side: Option<Side>)
    ensures forall s: Side :: side == Some(s) <==> code == SideCode(s)
  {
    match code
    case 1 => Some(Buy)
    case -1 => Some(Sell)
    case _ => None
  }

  function NextId(id: OrderId): OrderId {
    (id + 1) % WORD64
  }

  function Reject(r: ClientRequest): Reply {
    Reply(ClientResponse(ResponseCode(InvalidRequest), r.clientId, r.tickerId, r.orderId, 0, r.side, r.price, 0, r.qty),
          [])
  }

  function RejectCancel(r: ClientRequest): Reply {
    Reply(ClientResponse(ResponseCode(CancelRejected), r.clientId, r.tickerId, r.orderId, 0, r.side, r.price, 0, 0), [])
  }

  function AcceptReply(r: ClientRequest, id: OrderId): Reply {
    Reply(ClientResponse(ResponseCode(Accepted), r.clientId, r.tickerId, r.orderId, id, r.side, r.price, 0, r.qty),
          [MarketUpdate(UpdateCode(Add), r.tickerId, id, r.side, r.price, r.qty, id)])
  }

  function CancelReply(r: ClientRequest, o: LiveOrder): Reply {
    var side := SideCode(o.side);
    Reply(ClientResponse(ResponseCode(Canceled), r.clientId, r.tickerId, r.orderId, r.orderId, side, o.price, 0, o.qty),
          [MarketUpdate(UpdateCode(Cancel), r.tickerId, r.orderId, side, o.price, o.qty, o.priority)])
  }

  function ProcessNew(m: EngineModel, r: ClientRequest): (EngineModel, Reply) {
    if r.tickerId !in m.books || SideOf(r.side).None? then (m, Reject(r))
    else
      var book, id := m.books[r.tickerId], m.nextOrderId;
      var book' := AddTo(book, id, r.clientId, r.tickerId, SideOf(r.side).value, r.price, r.qty);
      (EngineModel(m.books[r.tickerId := book'], NextId(id)),
       if CanAdd(book, id) then AcceptReply(r, id) else Reject(r))
  }

  function ProcessCancel(m: EngineModel, r: ClientRequest): (EngineModel, Reply) {
    if r.tickerId !in m.books || r.orderId !in m.books[r.tickerId].live then (m, RejectCancel(r))
    else
      var book := m.books[r.tickerId];
      (m.(books := m.books[r.tickerId := CancelFrom(book, r.orderId)]), CancelReply(r, book.live[r.orderId]))
  }

  function Process(m: EngineModel, r: ClientRequest): (EngineModel, Reply) {
    match RequestTypeOf(r.msgType)
    case Some(NewOrder) => ProcessNew(m, r)
    case Some(CancelOrder) => ProcessCancel(m, r)
    case None => (m, Reject(r))
  }

  /** A request is answered with a rejection exactly when it publishes nothing, and then
      every book stays as it was. */
  lemma RejectedRequestsChangeNothing(m: EngineModel, r: ClientRequest)
    ensures var (m', reply) := Process(m, r);
      && (reply.updates == [] <==>
            reply.response.msgType in {ResponseCode(InvalidRequest), ResponseCode(CancelRejected)})
      && (reply.updates == [] ==> m'.books == m.books)
      && |reply.updates| <= 1
  {
  }

  /** The live orders of a ticker; none if it has no book. */
  function LiveOf(m: EngineModel, ticker: TickerId): Live {
    if ticker in m.books then m.books[ticker].live else map[]
  }

  /** The answer tells the client what happened: it names the request, and an acceptance or a
      cancellation names the one order that appeared or went, with its side, price and all
      of its quantity, executed or left. The update published with it tells the market the
      same, ranked by id when the order appears and by its priority when it goes. No other
      ticker changes. */
  lemma AnswerDescribesChange(m: EngineModel, r: ClientRequest)
    ensures var (m', reply) := Process(m, r);
      var a, live, live' := reply.response, LiveOf(m, r.tickerId), LiveOf(m', r.tickerId);
      && a.clientId == r.clientId && a.tickerId == r.tickerId && a.clientOrderId == r.orderId
      && (a.msgType == ResponseCode(Accepted) ==>
            && a.marketOrderId !in live && a.marketOrderId in live'
            && live' == live[a.marketOrderId := live'[a.marketOrderId]]
            && live'[a.marketOrderId].client == r.clientId
            && Describes(a, live'[a.marketOrderId]) && a.side == r.side && a.price == r.price && a.leavesQty == r.qty
            && reply.updates == [Publication(Add, a, a.marketOrderId)])
      && (a.msgType == ResponseCode(Canceled) ==>
            && a.marketOrderId == r.orderId && r.orderId in live && live' == live - {a.marketOrderId}
            && Describes(a, live[a.marketOrderId])
            && reply.updates == [Publication(Cancel, a, live[a.marketOrderId].priority)])
      && (a.msgType !in {ResponseCode(Accepted), ResponseCode(Canceled)} ==> live' == live)
      && m'.books.Keys == m.books.Keys
      && forall t | t in m.books && t != r.tickerId :: m'.books[t] == m.books[t]
  {
  }

  /** The market update that says what the answer says. */
  function Publication(kind: UpdateType, a: ClientResponse, priority: Priority): MarketUpdate {
    MarketUpdate(UpdateCode(kind), a.tickerId, a.marketOrderId, a.side, a.price, a.leavesQty, priority)
  }

  predicate Describes(a: ClientResponse, o: LiveOrder) {
    a.side == SideCode(o.side) && a.price == o.price && a.execQty + a.leavesQty == o.qty
  }

  // ---------------------------------------------------------------- the object

  class MatchingEngine {
    var books: map<TickerId, OrderBook>
    var nextOrderId: OrderId
    ghost var repr: set<object>

    /** The books do not share anything with each other or with the engine. */
    ghost predicate Separate()
      reads this
    {
      && this in repr
      && (forall t | t in books :: books[t].Repr() <= repr && this !in books[t].Repr())
      && forall a, b | a in books && b in books && a != b :: books[a].Repr() !! books[b].Repr()
    }

    ghost predicate Valid()
      reads this, repr
    {
      Separate() && forall t | t in books :: BookValid(t)
    }

    ghost predicate BookValid(t: TickerId)
      requires Separate() && t in books
      reads this, repr
    {
      assert books[t].Repr() <= repr;
      books[t].Valid() && books[t].ticker == t
    }

    ghost function Model(): EngineModel
      requires Valid()
      reads this, repr
    {
      EngineModel(map t | t in books :: BookModelOf(t), nextOrderId)
    }

    ghost function BookModelOf(t: TickerId): BookModel
      requires Separate() && t in books
      reads this, repr
    {
      assert books[t].Repr() <= repr;
      books[t].Model()
    }

    constructor ()
      ensures Valid() && fresh(repr)
      ensures Model() == NewEngine()
    {
      books, nextOrderId, repr := map[], 1, {this};
    }

    lemma BookIs(t: TickerId)
      requires Separate() && t in books
      ensures BookValid(t) <==> books[t].Valid() && books[t].ticker == t
      ensures BookModelOf(t) == books[t].Model()
    {
      hide Agrees;
    }

    /** If only the book of one ticker changed, so did only its entry in the model. */
    twostate lemma OtherBooksUntouched(ticker: TickerId)
      requires old(Valid()) && books == old(books) && repr == old(repr)
      requires ticker in books && books[ticker].Valid() && books[ticker].ticker == ticker
      requires unchanged(repr - {this} - books[ticker].Repr())
      ensures Valid()
      ensures Model().books == old(Model()).books[ticker := books[ticker].Model()]
    {
      hide BookValid, BookModelOf, Agrees;
      forall t | t in books && t != ticker ensures BookValid(t) && BookModelOf(t) == old(BookModelOf(t)) {
        assert old(BookValid(t));
        BookUntouched(t);
      }
      BookIs(ticker);
    }

    twostate lemma BookUntouched(t: TickerId)
      requires t in old(books) && t in books && books[t] == old(books)[t]
      requires old(Separate()) && Separate() && old(BookValid(t))
      requires unchanged(books[t].Repr())
      ensures BookValid(t) && BookModelOf(t) == old(BookModelOf(t))
    {
      hide Agrees, Separate;
      var book := books[t];
      assert unchanged(book) && unchanged(book.pool) && unchanged(book.pool.storage) && unchanged(book.pool.freeList);
    }

    method AddTicker(ticker: TickerId)
      requires Valid()
      modifies this
      ensures Valid() && fresh(repr - old(repr))
      ensures Model() == AddTickerTo(old(Model()), ticker)
    {
      if ticker !in books {
        var book := new OrderBook(ticker);
        books := books[ticker := book];
        repr := repr + book.Repr();
        NewBookAdded(ticker, book);
      }
    }

    twostate lemma NewBookAdded(ticker: TickerId, new book: OrderBook)
      requires old(Valid()) && ticker !in old(books)
      requires books == old(books)[ticker := book] && repr == old(repr) + book.Repr() && nextOrderId == old(nextOrderId)
      requires unchanged(old(repr) - {this})
      requires book.Valid() && book.ticker == ticker && book.Model() == EmptyBook()
      requires fresh(book.Repr())
      ensures Valid() && Model() == AddTickerTo(old(Model()), ticker)
    {
      hide BookValid, BookModelOf, Agrees, Separate, OrderBook.Valid, OrderBook.Model;
      NewBookSeparate(ticker, book);
      OldBooksKept(ticker, book);
      BookIs(ticker);
    }

    twostate lemma OldBooksKept(ticker: TickerId, new book: OrderBook)
      requires old(Valid()) && ticker !in old(books) && Separate()
      requires books == old(books)[ticker := book]
      requires forall t | t in old(books) :: unchanged(books[t].Repr())
      ensures forall t | t in old(books) :: BookValid(t) && BookModelOf(t) == old(BookModelOf(t))
    {
      hide BookValid, BookModelOf, Agrees, Separate, OrderBook.Valid, OrderBook.Model;
      forall t | t in old(books) ensures BookValid(t) && BookModelOf(t) == old(BookModelOf(t)) {
        assert old(BookValid(t));
        BookUntouched(t);
      }
    }

    twostate lemma NewBookSeparate(ticker: TickerId, new book: OrderBook)
      requires old(Separate()) && ticker !in old(books)
      requires books == old(books)[ticker := book] && repr == old(repr) + book.Repr()
      requires fresh(book.Repr()) && unchanged(old(repr) - {this})
      ensures Separate()
      ensures forall t | t in old(books) :: unchanged(books[t].Repr())
    {
      forall t | t in old(books) ensures book.Repr() !! books[t].Repr() {
        assert books[t].Repr() <= old(repr);
      }
    }

    /** `add_order` on the book of a ticker, under the next order id. */
    method AddToBook(ticker: TickerId, client: ClientId, side: Side, price: Price, qty: Qty) returns (ok: bool)
      requires Valid() && ticker in books
      modifies repr
      ensures Valid() && repr == old(repr) && books == old(books) && nextOrderId == NextId(old(nextOrderId))
      ensures var m := old(Model());
        && (ok <==> CanAdd(m.books[ticker], m.nextOrderId))
        && Model().books == m.books[ticker := AddTo(m.books[ticker], m.nextOrderId, client, ticker, side, price, qty)]
    {
      hide AddTo, CanAdd, Agrees, NextId;
      var book := books[ticker];
      assert BookValid(ticker);
      var id := nextOrderId;
      nextOrderId := NextId(nextOrderId);
      var slot := book.AddOrder(client, id, side, price, qty);
      OtherBooksUntouched(ticker);
      ok := slot.Some?;
    }

    /** `cancel_order` on the book of a ticker. */
    method CancelInBook(ticker: TickerId, id: OrderId) returns (removed: Option<LiveOrder>)
      requires Valid() && ticker in books
      modifies repr
      ensures Valid() && repr == old(repr) && books == old(books) && nextOrderId == old(nextOrderId)
      ensures var book := old(Model()).books[ticker];
        && removed == (if id in book.live then Some(book.live[id]) else None)
        && Model().books == old(Model()).books[ticker := CancelFrom(book, id)]
    {
      hide CancelFrom, Agrees;
      var book := books[ticker];
      assert BookValid(ticker);
      removed := book.CancelOrder(id);
      OtherBooksUntouched(ticker);
    }

    method ProcessRequest(r: ClientRequest) returns (reply: Reply)
      requires Valid()
      modifies repr
      ensures Valid() && repr == old(repr)
      ensures (Model(), reply) == Process(old(Model()), r)
    {
      hide Valid, Separate, Model, ProcessNew, ProcessCancel, Reject;
      match RequestTypeOf(r.msgType) {
        case Some(NewOrder) => reply := HandleNewOrder(r);
        case Some(CancelOrder) => reply := HandleCancel(r);
        case None => reply := Reject(r);
      }
    }

    method HandleNewOrder(r: ClientRequest) returns (reply: Reply)
      requires Valid()
      modifies repr
      ensures Valid() && repr == old(repr)
      ensures (Model(), reply) == ProcessNew(old(Model()), r)
    {
      hide Valid, Separate, BookValid, BookModelOf, AddTo, CanAdd, NextId, AcceptReply, Reject;
      if r.tickerId !in books {
        return Reject(r);
      }
      var side;
      match r.side {
        case 1 => side := Buy;
        case -1 => side := Sell;
        case _ => return Reject(r);
      }
      var id := nextOrderId;
      var added := AddToBook(r.tickerId, r.clientId, side, r.price, r.qty);
      if added {
        reply := AcceptReply(r, id);
      } else {
        reply := Reject(r);
      }
    }

    method HandleCancel(r: ClientRequest) returns (reply: Reply)
      requires Valid()
      modifies repr
      ensures Valid() && repr == old(repr)
      ensures (Model(), reply) == ProcessCancel(old(Model()), r)
    {
      hide Valid, Separate, BookValid, BookModelOf, CancelReply, RejectCancel;
      if r.tickerId !in books {
        return RejectCancel(r);
      }
      var removed := CancelInBook(r.tickerId, r.orderId);
      if removed.Some? {
        reply := CancelReply(r, removed.value);
      } else {
        CancelAbsent(old(Model()).books[r.tickerId], r.orderId);
        assert Model().books == old(Model()).books;
        reply := RejectCancel(r);
      }
    }
  }

  lemma CancelAbsent(b: BookModel, id: OrderId)
    requires id !in b.live
    ensures CancelFrom(b, id) == b
  {
    assert b.live - {id} == b.live;
  }
}
