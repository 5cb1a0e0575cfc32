/** What holds over every sequence of commands given to the matching engine. */
module EngineRuns {
  import opened Types
  import opened Protocol
  import opened OrderBook
  import opened MatchingEngine

  datatype Command = AddTicker(ticker: TickerId) | Request(request: ClientRequest)

  function Apply(m: EngineModel, c: Command): EngineModel {
    match c
    case AddTicker(t) => AddTickerTo(m, t)
    case Request(r) => Process(m, r).0
  }

  function Emitted(m: EngineModel, c: Command): seq<MarketUpdate> {
    if c.Request? then Process(m, c.request).1.updates else []
  }

  function Run(cs: seq<Command>): EngineModel {
    if cs == [] then NewEngine() else Apply(Run(cs[..|cs| - 1]), cs[|cs| - 1])
  }

  /** Everything published, in order. */
  function Updates(cs: seq<Command>): seq<MarketUpdate> {
    if cs == [] then [] else Updates(cs[..|cs| - 1]) + Emitted(Run(cs[..|cs| - 1]), cs[|cs| - 1])
  }

  // ---------------------------------------------------------------- replay

  /** What a subscriber can know of an order. */
  datatype Quote = Quote(side: i8, price: Price, qty: Qty)

  function Visible(live: Live): map<OrderId, Quote> {
    map id | id in live :: Quote(SideCode(live[id].side), live[id].price, live[id].qty)
  }

  /** The subscriber's book of one ticker after an update. */
  function Follow(view: map<OrderId, Quote>, ticker: TickerId, u: MarketUpdate): map<OrderId, Quote> {
    if u.tickerId != ticker then view
    else
      match UpdateTypeOf(u.msgType)
      case Some(Add) => view[u.orderId := Quote(u.side, u.price, u.qty)]
      case Some(Cancel) => view - {u.orderId}
      case _ => view
  }

  function Replay(us: seq<MarketUpdate>, ticker: TickerId): map<OrderId, Quote> {
    if us == [] then map[] else Follow(Replay(us[..|us| - 1], ticker), ticker, us[|us| - 1])
  }

  /** The engine's own book of a ticker, as a subscriber would see it. */
  function BookView(m: EngineModel, ticker: TickerId): map<OrderId, Quote> {
    if ticker in m.books then Visible(m.books[ticker].live) else map[]
  }

  lemma StepIsFollowed(m: EngineModel, c: Command, ticker: TickerId)
    ensures var us := Emitted(m, c);
      BookView(Apply(m, c), ticker) ==
        if us == [] then BookView(m, ticker) else Follow(BookView(m, ticker), ticker, us[0])
    ensures |Emitted(m, c)| <= 1
  {
  }

  /** Folding the published updates from nothing gives, for every ticker, exactly the live
      orders the engine holds. */
  lemma {:induction false} ReplayReproducesBooks(cs: seq<Command>, ticker: TickerId)
    ensures Replay(Updates(cs), ticker) == BookView(Run(cs), ticker)
  {
    hide Apply, Emitted, Follow;
    if cs == [] {
      NothingAtStart(ticker);
    } else {
      var before, c := cs[..|cs| - 1], cs[|cs| - 1];
      ReplayReproducesBooks(before, ticker);
      StepIsFollowed(Run(before), c, ticker);
      var us, e := Updates(before), Emitted(Run(before), c);
      if e != [] {
        assert us + e == us + [e[0]];
        assert (us + e)[..|us + e| - 1] == us;
      } else {
        assert us + e == us;
      }
    }
  }

  lemma NothingAtStart(ticker: TickerId)
    ensures BookView(NewEngine(), ticker) == map[]
  {
  }

  // ---------------------------------------------------------------- answers

  /** Everything answered to clients, in order. */
  function Answers(cs: seq<Command>): seq<ClientResponse> {
    if cs == [] then []
    else
      var before, c := cs[..|cs| - 1], cs[|cs| - 1];
      Answers(before) + if c.Request? then [Process(Run(before), c.request).1.response] else []
  }

  /** A book of one ticker, kept from answers: an accepted order comes with all of its
      quantity, executed or left, and a cancelled one goes. */
  function Heed(view: map<OrderId, Quote>, ticker: TickerId, a: ClientResponse): map<OrderId, Quote> {
    if a.tickerId != ticker then view
    else
      match ResponseTypeOf(a.msgType)
      case Some(Accepted) =>
        view[a.marketOrderId := Quote(a.side, a.price, (a.execQty + a.leavesQty) % WORD32)]
      case Some(Canceled) => view - {a.marketOrderId}
      case _ => view
  }

  function Heeded(answers: seq<ClientResponse>, ticker: TickerId): map<OrderId, Quote> {
    if answers == [] then map[] else Heed(Heeded(answers[..|answers| - 1], ticker), ticker, answers[|answers| - 1])
  }

  lemma AnswerIsHeeded(m: EngineModel, r: ClientRequest, ticker: TickerId)
    ensures var (m', reply) := Process(m, r);
      BookView(m', ticker) == Heed(BookView(m, ticker), ticker, reply.response)
  {
    hide Process, RequestTypeOf;
    AnswerDescribesChange(m, r);
  }

  lemma HeedLast(answers: seq<ClientResponse>, a: ClientResponse, ticker: TickerId)
    ensures Heeded(answers + [a], ticker) == Heed(Heeded(answers, ticker), ticker, a)
  {
    assert (answers + [a])[..|answers|] == answers;
  }

  /** Clients together are told the whole truth: folding all the answers from nothing gives,
      for every ticker, exactly the live orders, as folding the published updates does. */
  lemma {:induction false} AnswersReproduceBooks(cs: seq<Command>, ticker: TickerId)
    ensures Heeded(Answers(cs), ticker) == BookView(Run(cs), ticker) == Replay(Updates(cs), ticker)
  {
    hide Heed, Heeded, Process, BookView, AddTickerTo, Replay, Updates;
    ReplayReproducesBooks(cs, ticker);
    if cs == [] {
      NothingAtStart(ticker);
      NothingHeeded(ticker);
    } else {
      var before, c := cs[..|cs| - 1], cs[|cs| - 1];
      AnswersReproduceBooks(before, ticker);
      match c {
        case AddTicker(t) =>
          NewTickerIsEmpty(Run(before), t, ticker);
          assert Answers(before) + [] == Answers(before);
        case Request(r) =>
          AnswerIsHeeded(Run(before), r, ticker);
          HeedLast(Answers(before), Process(Run(before), r).1.response, ticker);
      }
    }
  }

  lemma NothingHeeded(ticker: TickerId)
    ensures Heeded([], ticker) == map[]
  {
  }

  lemma NewTickerIsEmpty(m: EngineModel, t: TickerId, ticker: TickerId)
    ensures BookView(AddTickerTo(m, t), ticker) == BookView(m, ticker)
  {
  }

  /** The answers one client got. */
  function AnswersTo(answers: seq<ClientResponse>, client: ClientId): seq<ClientResponse> {
    if answers == [] then []
    else
      var before, a := answers[..|answers| - 1], answers[|answers| - 1];
      AnswersTo(before, client) + if a.clientId == client then [a] else []
  }

  /** The view shows every live order of the client as it is. */
  ghost predicate ShowsOrdersOf(view: map<OrderId, Quote>, m: EngineModel, ticker: TickerId, client: ClientId) {
    forall id | id in LiveOf(m, ticker) && LiveOf(m, ticker)[id].client == client ::
      id in view && view[id] == BookView(m, ticker)[id]
  }

  lemma OwnAnswerSuffices(
    m: EngineModel, r: ClientRequest, view: map<OrderId, Quote>, ticker: TickerId, client: ClientId)
    requires ShowsOrdersOf(view, m, ticker, client)
    ensures var (m', reply) := Process(m, r);
      var a := reply.response;
      ShowsOrdersOf(if a.clientId == client then Heed(view, ticker, a) else view, m', ticker, client)
  {
    hide Process, RequestTypeOf;
    AnswerDescribesChange(m, r);
  }

  lemma AnswersToLast(answers: seq<ClientResponse>, a: ClientResponse, client: ClientId)
    ensures AnswersTo(answers + [a], client) == AnswersTo(answers, client) + if a.clientId == client then [a] else []
  {
    assert (answers + [a])[..|answers|] == answers;
  }

  /** A client that listens to its own answers only still knows every live order it has. It
      may also think it has orders that are gone: anyone may cancel them. */
  lemma {:induction false} OwnAnswersShowOwnOrders(cs: seq<Command>, ticker: TickerId, client: ClientId)
    ensures ShowsOrdersOf(Heeded(AnswersTo(Answers(cs), client), ticker), Run(cs), ticker, client)
  {
    hide Heed, Heeded, Process, AddTickerTo, ShowsOrdersOf, AnswersTo;
    if cs == [] {
      NoOrdersAtStart(Heeded(AnswersTo(Answers(cs), client), ticker), ticker, client);
    } else {
      var before, c := cs[..|cs| - 1], cs[|cs| - 1];
      OwnAnswersShowOwnOrders(before, ticker, client);
      var own := AnswersTo(Answers(before), client);
      match c {
        case AddTicker(t) =>
          NewTickerShows(Heeded(own, ticker), Run(before), t, ticker, client);
          assert Answers(before) + [] == Answers(before);
        case Request(r) =>
          var a := Process(Run(before), r).1.response;
          OwnAnswerSuffices(Run(before), r, Heeded(own, ticker), ticker, client);
          AnswersToLast(Answers(before), a, client);
          HeedLast(own, a, ticker);
          assert own + [] == own;
      }
    }
  }

  lemma NoOrdersAtStart(view: map<OrderId, Quote>, ticker: TickerId, client: ClientId)
    ensures ShowsOrdersOf(view, NewEngine(), ticker, client)
  {
  }

  lemma NewTickerShows(view: map<OrderId, Quote>, m: EngineModel, t: TickerId, ticker: TickerId, client: ClientId)
    requires ShowsOrdersOf(view, m, ticker, client)
    ensures ShowsOrdersOf(view, AddTickerTo(m, t), ticker, client)
  {
  }

  // ---------------------------------------------------------------- ids and priorities

  /** Within a book: ids below the next one, priorities below the next one, and both in the
      same order. */
  ghost predicate BookOrdered(b: BookModel, next: nat) {
    && 1 <= b.nextPriority <= next
    && (forall id | id in b.live :: 1 <= id < next && b.live[id].priority < b.nextPriority)
    && (forall i, j | i in b.live && j in b.live && i < j :: b.live[i].priority < b.live[j].priority)
  }

  ghost predicate Ordered(m: EngineModel) {
    && (forall t | t in m.books :: BookOrdered(m.books[t], m.nextOrderId))
    && (forall s, t, id | s in m.books && t in m.books && s != t && id in m.books[s].live :: id !in m.books[t].live)
  }

  lemma InsertKeepsOrder(b: BookModel, id: OrderId, o: LiveOrder, next: Priority)
    requires BookOrdered(b, id) && 1 <= id && o.priority == b.nextPriority && next == b.nextPriority + 1
    ensures id !in b.live && BookOrdered(BookModel(b.live[id := o], next), id + 1)
  {
  }

  lemma AddKeepsOrder(b: BookModel, id: OrderId, client: ClientId, ticker: TickerId, side: Side, price: Price, qty: Qty)
    requires BookOrdered(b, id) && 1 <= id < WORD64 - 1
    ensures id !in b.live
    ensures BookOrdered(AddTo(b, id, client, ticker, side, price, qty), id + 1)
    ensures AddTo(b, id, client, ticker, side, price, qty).live.Keys <= b.live.Keys + {id}
  {
    LaterIdKeepsOrder(b, id);
    InsertKeepsOrder(b, id, LiveOrder(client, ticker, side, price, qty, b.nextPriority), b.nextPriority + 1);
    hide BookOrdered;
  }

  lemma NewKeepsOrder(m: EngineModel, r: ClientRequest)
    requires Ordered(m) && 1 <= m.nextOrderId < WORD64 - 1
    ensures Ordered(ProcessNew(m, r).0)
    ensures 1 <= ProcessNew(m, r).0.nextOrderId <= m.nextOrderId + 1
  {
    hide AddTo, CanAdd, AcceptReply, Reject, BookOrdered, Ordered, SideOf;
    if r.tickerId in m.books && SideOf(r.side).Some? {
      var id, b := m.nextOrderId, m.books[r.tickerId];
      BookInOrder(m, r.tickerId);
      AddKeepsOrder(b, id, r.clientId, r.tickerId, SideOf(r.side).value, r.price, r.qty);
      UpdateKeepsOrder(m, r.tickerId, AddTo(b, id, r.clientId, r.tickerId, SideOf(r.side).value, r.price, r.qty));
    }
  }

  lemma BookInOrder(m: EngineModel, t: TickerId)
    requires Ordered(m) && t in m.books
    ensures BookOrdered(m.books[t], m.nextOrderId)
  {
  }

  lemma LaterIdKeepsOrder(b: BookModel, next: nat)
    requires BookOrdered(b, next)
    ensures BookOrdered(b, next + 1) && next !in b.live.Keys
  {
  }

  /** Giving one book an order under the next id keeps all books in order. */
  lemma UpdateKeepsOrder(m: EngineModel, ticker: TickerId, b: BookModel)
    requires Ordered(m) && ticker in m.books && m.nextOrderId < WORD64 - 1
    requires BookOrdered(b, m.nextOrderId + 1) && b.live.Keys <= m.books[ticker].live.Keys + {m.nextOrderId}
    ensures Ordered(EngineModel(m.books[ticker := b], NextId(m.nextOrderId)))
  {
    hide BookOrdered;
    forall t | t in m.books
      ensures BookOrdered(m.books[t], m.nextOrderId + 1) && m.nextOrderId !in m.books[t].live.Keys
    {
      LaterIdKeepsOrder(m.books[t], m.nextOrderId);
    }
  }

  lemma CancelKeepsOrder(m: EngineModel, r: ClientRequest)
    requires Ordered(m)
    ensures Ordered(ProcessCancel(m, r).0)
  {
  }

  lemma AddTickerKeepsOrder(m: EngineModel, ticker: TickerId)
    requires Ordered(m) && 1 <= m.nextOrderId
    ensures Ordered(AddTickerTo(m, ticker))
  {
  }

  lemma {:induction false} RunsAreOrdered(cs: seq<Command>)
    requires |cs| < WORD64 - 1
    ensures Ordered(Run(cs)) && 1 <= Run(cs).nextOrderId <= |cs| + 1
  {
    hide Ordered, ProcessNew, ProcessCancel, AddTickerTo, Reject, RequestTypeOf;
    if cs == [] {
      EmptyOrdered();
    } else {
      var m, c := Run(cs[..|cs| - 1]), cs[|cs| - 1];
      RunsAreOrdered(cs[..|cs| - 1]);
      CommandKeepsOrder(m, c);
    }
  }

  lemma EmptyOrdered()
    ensures Ordered(NewEngine())
  {
  }

  lemma CommandKeepsOrder(m: EngineModel, c: Command)
    requires Ordered(m) && 1 <= m.nextOrderId < WORD64 - 1
    ensures Ordered(Apply(m, c)) && 1 <= Apply(m, c).nextOrderId <= m.nextOrderId + 1
  {
    hide Ordered, ProcessNew, RequestTypeOf, Reject, RejectCancel, CancelReply;
    match c {
      case AddTicker(t) => AddTickerKeepsOrder(m, t);
      case Request(r) => NewKeepsOrder(m, r); CancelKeepsOrder(m, r);
    }
  }

  /** Until the id counter has gone round: live ids are unique across tickers and below the
      next id, so an add is never refused for a duplicate; and two live orders of a book are
      ranked by id, the priority published with an Add, as by the book's own priority. */
  lemma TimePriorityIsConsistent(cs: seq<Command>)
    requires |cs| < WORD64 - 1
    ensures var m := Run(cs);
      && (forall t, id | t in m.books && id in m.books[t].live :: 1 <= id < m.nextOrderId)
      && (forall s, t, id | s in m.books && t in m.books && s != t && id in m.books[s].live :: id !in m.books[t].live)
      && (forall t | t in m.books :: CanAdd(m.books[t], m.nextOrderId) <==> |m.books[t].live| < POOL_CAPACITY)
      && (forall t, i, j | t in m.books && i in m.books[t].live && j in m.books[t].live ::
            i < j <==> m.books[t].live[i].priority < m.books[t].live[j].priority)
  {
    hide Run;
    RunsAreOrdered(cs);
    var m := Run(cs);
    forall t | t in m.books ensures BookOrdered(m.books[t], m.nextOrderId) {}
    forall t, i, j | t in m.books && i in m.books[t].live && j in m.books[t].live
      ensures i < j <==> m.books[t].live[i].priority < m.books[t].live[j].priority
    {
      assert BookOrdered(m.books[t], m.nextOrderId);
    }
  }

  // ---------------------------------------------------------------- what is answered

  /** A new order for a ticker added earlier, with a proper side, takes the next id. */
  predicate TakesId(before: seq<Command>, c: Command) {
    && c.Request? && c.request.msgType == RequestCode(NewOrder)
    && AddTicker(c.request.tickerId) in before && (c.request.side == 1 || c.request.side == -1)
  }

  function IdsTaken(cs: seq<Command>): nat {
    if cs == [] then 0
    else IdsTaken(cs[..|cs| - 1]) + if TakesId(cs[..|cs| - 1], cs[|cs| - 1]) then 1 else 0
  }

  /** The id of the next order. */
  function IdAfter(cs: seq<Command>): OrderId {
    (1 + IdsTaken(cs)) % WORD64
  }

  lemma StepTickersAndIds(m: EngineModel, c: Command, t: TickerId)
    ensures var m' := Apply(m, c);
      && (t in m'.books <==> t in m.books || c == AddTicker(t))
      && m'.nextOrderId ==
         if c.Request? && c.request.msgType == RequestCode(NewOrder) && c.request.tickerId in m.books
            && (c.request.side == 1 || c.request.side == -1)
         then (m.nextOrderId + 1) % WORD64 else m.nextOrderId
  {
    hide AddTo, CancelFrom;
  }

  /** The tickers with a book are those added, and each new order for one of them, with a
      proper side, takes an id. */
  lemma {:induction false} TickersAndIds(cs: seq<Command>)
    ensures forall t: TickerId :: t in Run(cs).books <==> AddTicker(t) in cs
    ensures Run(cs).nextOrderId == IdAfter(cs)
  {
    hide Apply;
    if cs == [] {
    } else {
      var before, c := cs[..|cs| - 1], cs[|cs| - 1];
      TickersAndIds(before);
      assert cs == before + [c];
      forall t: TickerId ensures t in Run(cs).books <==> AddTicker(t) in cs {
        StepTickersAndIds(Run(before), c, t);
      }
      StepTickersAndIds(Run(before), c, 0);
    }
  }

  lemma ViewSize(m: EngineModel, t: TickerId)
    ensures |BookView(m, t)| == |LiveOf(m, t)| && BookView(m, t).Keys == LiveOf(m, t).Keys
  {
    var view, live := BookView(m, t), LiveOf(m, t);
    assert view.Keys == live.Keys;
    assert |view| == |view.Keys| && |live| == |live.Keys|;
  }

  /** Over every command sequence, a new order is accepted exactly if its ticker was added
      earlier, its side is proper, the replayed book of its ticker has room and does not hold
      the id whose turn it is; that last cannot fail before the ids have gone round. What is
      answered and published then, and otherwise, is this. */
  lemma NewOrderAnswer(cs: seq<Command>, r: ClientRequest)
    requires r.msgType == RequestCode(NewOrder)
    ensures var reply, book, id := Process(Run(cs), r).1, Replay(Updates(cs), r.tickerId), IdAfter(cs);
      var accepted :=
        AddTicker(r.tickerId) in cs && (r.side == 1 || r.side == -1) && |book| < 65536 && id !in book;
      && (|cs| < WORD64 - 1 ==> id !in book)
      && reply.response == ClientResponse(
           ResponseCode(if accepted then Accepted else InvalidRequest), r.clientId, r.tickerId, r.orderId,
           if accepted then id else 0, r.side, r.price, 0, r.qty)
      && reply.updates ==
         if accepted then [MarketUpdate(UpdateCode(Add), r.tickerId, id, r.side, r.price, r.qty, id)] else []
  {
    hide Run, Updates, Replay, BookView, IdAfter, AddTo;
    TickersAndIds(cs);
    ReplayReproducesBooks(cs, r.tickerId);
    ViewSize(Run(cs), r.tickerId);
    if |cs| < WORD64 - 1 {
      IdsAreNew(cs, r.tickerId);
    }
  }

  lemma IdsAreNew(cs: seq<Command>, t: TickerId)
    requires |cs| < WORD64 - 1
    ensures Run(cs).nextOrderId !in LiveOf(Run(cs), t)
  {
    hide Run;
    TimePriorityIsConsistent(cs);
  }

  /** How many orders of a ticker were added. */
  function AddsOf(us: seq<MarketUpdate>, t: TickerId): nat {
    if us == [] then 0
    else AddsOf(us[..|us| - 1], t) + if IsAdd(us[|us| - 1], t) then 1 else 0
  }

  predicate IsAdd(u: MarketUpdate, t: TickerId) {
    u.tickerId == t && u.msgType == UpdateCode(Add)
  }

  /** The priority of an order: its place among the orders ever added to the book. */
  function PriorityIn(us: seq<MarketUpdate>, t: TickerId, id: OrderId): Priority {
    if us == [] then 0
    else if IsAdd(us[|us| - 1], t) && us[|us| - 1].orderId == id then (1 + AddsOf(us[..|us| - 1], t)) % WORD64
    else PriorityIn(us[..|us| - 1], t, id)
  }

  /** The book ranks its orders as they were added. */
  ghost predicate Ranked(m: EngineModel, us: seq<MarketUpdate>, t: TickerId) {
    && (t in m.books ==> m.books[t].nextPriority == (1 + AddsOf(us, t)) % WORD64)
    && (t !in m.books ==> AddsOf(us, t) == 0)
    && (forall id | id in LiveOf(m, t) :: LiveOf(m, t)[id].priority == PriorityIn(us, t, id))
  }

  /** What one command does to the priorities of a ticker's book. */
  lemma StepRanks(m: EngineModel, c: Command, t: TickerId)
    ensures var m', us := Apply(m, c), Emitted(m, c);
      var live, live' := LiveOf(m, t), LiveOf(m', t);
      && |us| <= 1 && (t in m'.books <==> t in m.books || c == AddTicker(t))
      && (t !in m.books && t in m'.books ==> m'.books[t].nextPriority == 1)
      && (us != [] && IsAdd(us[0], t) ==>
            && t in m.books && m'.books[t].nextPriority == (m.books[t].nextPriority + 1) % WORD64
            && us[0].orderId in live' && live'[us[0].orderId].priority == m.books[t].nextPriority)
      && (t in m.books && !(us != [] && IsAdd(us[0], t)) ==> m'.books[t].nextPriority == m.books[t].nextPriority)
      && (forall id | id in live' && !(us != [] && IsAdd(us[0], t) && us[0].orderId == id) ::
            id in live && live'[id] == live[id])
  {
  }

  lemma RankLast(us: seq<MarketUpdate>, u: MarketUpdate, t: TickerId, id: OrderId)
    ensures AddsOf(us + [u], t) == AddsOf(us, t) + if IsAdd(u, t) then 1 else 0
    ensures PriorityIn(us + [u], t, id) ==
      if IsAdd(u, t) && u.orderId == id then (1 + AddsOf(us, t)) % WORD64 else PriorityIn(us, t, id)
  {
    hide IsAdd;
    assert (us + [u])[..|us|] == us;
  }

  lemma StepKeepsRanked(m: EngineModel, c: Command, us: seq<MarketUpdate>, t: TickerId)
    requires Ranked(m, us, t)
    ensures Ranked(Apply(m, c), us + Emitted(m, c), t)
  {
    hide Apply, Emitted, IsAdd, LiveOf, AddsOf, PriorityIn;
    StepRanks(m, c, t);
    var m', e := Apply(m, c), Emitted(m, c);
    if e == [] {
      assert us + e == us;
    } else {
      assert us + e == us + [e[0]];
      RankLast(us, e[0], t, 0);
      forall id | id in LiveOf(m', t) ensures LiveOf(m', t)[id].priority == PriorityIn(us + e, t, id) {
        RankLast(us, e[0], t, id);
      }
    }
  }

  lemma {:induction false} BooksAreRanked(cs: seq<Command>, t: TickerId)
    ensures Ranked(Run(cs), Updates(cs), t)
  {
    hide Apply, Emitted, Ranked;
    if cs == [] {
      EmptyRanked(t);
    } else {
      BooksAreRanked(cs[..|cs| - 1], t);
      StepKeepsRanked(Run(cs[..|cs| - 1]), cs[|cs| - 1], Updates(cs[..|cs| - 1]), t);
    }
  }

  lemma EmptyRanked(t: TickerId)
    ensures Ranked(NewEngine(), [], t)
  {
  }

  /** A cancel succeeds exactly if the replayed book of its ticker holds the order, whoever
      sent it; all of the order is reported as left and none as executed, and its priority in
      the book is published. */
  lemma CancelAnswer(cs: seq<Command>, r: ClientRequest)
    requires r.msgType == RequestCode(CancelOrder)
    ensures var reply, us, id := Process(Run(cs), r).1, Updates(cs), r.orderId;
      var book := Replay(us, r.tickerId);
      if id in book then
        var q := book[id];
        && reply.response == ClientResponse(ResponseCode(ResponseType.Canceled), r.clientId, r.tickerId, id, id,
                                            q.side, q.price, 0, q.qty)
        && reply.updates == [MarketUpdate(UpdateCode(UpdateType.Cancel), r.tickerId, id, q.side, q.price, q.qty,
                                          PriorityIn(us, r.tickerId, id))]
      else
        && reply.response == ClientResponse(ResponseCode(CancelRejected), r.clientId, r.tickerId, id, 0,
                                            r.side, r.price, 0, 0)
        && reply.updates == []
  {
    hide Run, Updates, Replay, PriorityIn, AddsOf;
    ReplayReproducesBooks(cs, r.tickerId);
    BooksAreRanked(cs, r.tickerId);
  }

  /** A request of any other type is refused. */
  lemma UnknownRequestAnswer(cs: seq<Command>, r: ClientRequest)
    requires r.msgType != RequestCode(NewOrder) && r.msgType != RequestCode(CancelOrder)
    ensures var (m, reply) := Process(Run(cs), r);
      && m == Run(cs) && reply.updates == []
      && reply.response == ClientResponse(ResponseCode(InvalidRequest), r.clientId, r.tickerId, r.orderId, 0,
                                          r.side, r.price, 0, r.qty)
  {
  }
}
