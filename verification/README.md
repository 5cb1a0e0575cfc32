# Verified model of a low-latency trading system

A Dafny model of an exchange and a trading client that talk over TCP and multicast. It
covers the lock-free queue and the logger on top of it, the exchange's order book, matching
engine and order server, and the client's gateway, positions, risk checks, trade engine,
best bid and offer view and order rate limiter.

Each component that updates fields in place is a class whose methods are proved against a
function on values: the new state is that function of the old one. What the component
promises over time is then proved about that function, for every run.

- `LfQueue` runs the two threads of the queue one atomic action at a time, in any
  interleaving, with 64-bit indices that wrap. Loads and stores are taken as sequentially
  consistent. `Logging` adds the owner and the writer thread.
- `MemPool`, `OrderBook`, `MatchingEngine` are the exchange's objects; `EngineRuns` states
  what holds over all command sequences. The links between orders of a price level are kept
  as the source keeps them: nothing ever points forward, and a cancel may write through a
  link to a slot that was freed or reused.
- `Protocol`, `WireFormat`, `Framing`, `Sequencer`, `OrderServer`, `OrderGateway` are the wire path. The
  documentation of the messages gives 34, 47 and 35 bytes; their fields add up to 30, 42 and
  34, which is what the code sends and what is modelled.
- `Position`, `PositionRuns`, `Risk`, `TradeEngine`, `TradeRuns`, `TradeHistory`, `Exposure`,
  `Overshoot` are the client. A run of the trade engine is any sequence of submissions,
  responses, market data, changes of limits and resets; results that do not hold across a
  reset say so. `TradeHistory` states what the engine keeps from the events alone. The
  assumptions on a run are `TradeRuns.WellFormedRun`: the id of a new order is not in use, a
  response about a tracked order names its ticker and accounts for its open quantity, and a
  final fill is about a tracked order, so none comes late for an order that a reset forgot.
  Open order counts and open quantities are 32-bit words that wrap, as they do in a release
  build.
- `MarketData`, `QuoteHistory`, `ClientView` are the client's best bid and offer: what it shows
  after any updates, and how that relates to the exchange's books.
- `LiquidityTaker` is the order rate limiter.

Some claims one might expect are false of the code.

- The risk checks do not keep a position within `max_position`. Orders that reduce risk skip
  that limit (`Overshoot.BoundIsReached`), and open quantities that wrap hide orders from the
  check (`Overshoot.WrappingRunOvershoots`, `Overshoot.HiddenByWrapping`,
  `Overshoot.HiddenByResets`). `Exposure.ExposureBound`, `Exposure.PositionBound` and
  `Exposure.PositionBoundRegardless` give the bounds that hold, and `Overshoot.LimitKeptIff`
  exactly the limits under which `max_position` is kept.
- The open quantities are not always those of the tracked orders: `Overshoot.AgreementKeptIff`
  and `TradeRuns.StepAgreesIff` say when they are, `TradeRuns.UntrackedFinalFill` and
  `TradeRuns.ResetAgreesIff` what a final fill of an unknown order and a reset do to them.
- The client's bid price is not always the highest buy price added, because one price value
  stands for "none": `ClientView.SentinelHidesBid` gives a run, `ClientView.ClientBboIsSound`
  exactly when it is.

## Model

| member | source | states |
|---|---|---|
| `LfQueue.InterleavingsAreFifo` | common/src/lf_queue.rs:123-199 | under every interleaving of push and pop actions the observed results are a history of an atomic FIFO of capacity N: a refused push met exactly N items, a failed pop an empty queue, and the popped items are a prefix of the pushed ones |
| `LfQueue.SlotsAreOwned` | common/src/lf_queue.rs:137-192 | a write about to happen hits neither the slot of an unconsumed item nor the slot being read, and a read about to happen finds the oldest item, across index wrap-around and with a stale view of the other index |
| `LfQueue.StepSimulatesFifo` | common/src/lf_queue.rs:125-198 | each single load, store or slot access is one event of the atomic FIFO |
| `LfQueue.SlotOfWrapped` | common/src/lf_queue.rs:72-73 | masking a wrapped 64-bit index finds the slot of the unbounded counter, for every power of two below 2^64 |
| `LfQueue.WrappedDistance` | common/src/lf_queue.rs:130-134 | wrapping subtraction of the two indices is the true number of items |
| `Arithmetic.MaskIsMod` | common/src/lf_queue.rs:137 | bitwise and with 2^k - 1 is the remainder modulo 2^k |
| `LfQueue.LFQueue.constructor` | common/src/lf_queue.rs:86-102 | a new queue is empty |
| `LfQueue.LFQueue.Push` | common/src/lf_queue.rs:123-152 | appends unless full, and performs exactly the four atomic actions |
| `LfQueue.LFQueue.Pop` | common/src/lf_queue.rs:171-199 | removes and returns the oldest item, or nothing if empty |
| `LfQueue.LFQueue.Len` | common/src/lf_queue.rs:206-210 | the number of items, also when the indices have wrapped |
| `LfQueue.LFQueue.Drop` | common/src/lf_queue.rs:241-246 | releases every remaining item once, in order, and leaves the queue empty |
| `Logging.ShutdownWritesEverything` | common/src/logging.rs:149-192 | in every interleaving the output is a prefix of the accepted entries, and all of them, once each and in order, when drop has joined the writer |
| `Logging.WriterFinishes` | common/src/logging.rs:153-191 | wherever the writer is when the stop flag goes up, it finishes after an exactly known number of its own actions, having written everything accepted |
| `Logging.JoinReturns` | common/src/logging.rs:355-365 | from every reachable state after the stop signal the writer finishes, so the join returns |
| `Logging.DropWritesEverything` | common/src/logging.rs:355-365 | from every reachable state in which no push is under way, signalling the stop, letting the writer run and joining it ends with everything accepted written |
| `Logging.EveryEntryIsWritten` | common/src/logging.rs:149-192 | in every interleaving, stop signal or not, whatever was accepted is written after five writer turns for each entry still unwritten and one more, whatever the owner does in between |
| `Logging.LogCompletes` | common/src/logging.rs:212-226 | an entry logged is itself accepted or refused after at most three more steps of the owner, whatever the writer does in between |
| `MemPool.MemPool.constructor` | common/src/mem_pool.rs:105-169 | every slot is free at first |
| `MemPool.MemPool.Allocate` | common/src/mem_pool.rs:188-211 | hands out a slot that was free and is not any more; fails only when none is free |
| `MemPool.MemPool.DeallocateByIndex` | common/src/mem_pool.rs:281-298 | the slot becomes free and the stack never overflows |
| `OrderBook.OrderBook.constructor` | exchange/src/order_book.rs:98-107 | a new book has no live orders |
| `OrderBook.OrderBook.AddOrder` | exchange/src/order_book.rs:120-215 | adds exactly the new live order with the next priority; fails exactly on an id in use or with every pool slot taken; keeps pool, index and levels in agreement with the live orders |
| `OrderBook.OrderBook.CancelOrder` | exchange/src/order_book.rs:220-290 | exactly the named order goes and is returned if it was live; keeps every agreement |
| `OrderBook.OrderBook.Unlink` | exchange/src/order_book.rs:246-269 | the only record written is the one behind the back link, and only its forward link |
| `OrderBook.CancelFinds` | exchange/src/order_book.rs:222-246 | for an indexed id the slot, the record and the level exist, so the early exits after the map removal are never taken |
| `OrderBook.CancelAgrees` | exchange/src/order_book.rs:248-286 | partition of the slots, records, links and level aggregates survive a cancel, whatever its write through the back link hits |
| `OrderBook.AddAgrees` | exchange/src/order_book.rs:133-196 | partition of the slots, records, links and level aggregates survive an add |
| `OrderBook.RecordedRelink` | exchange/src/order_book.rs:250-254 | rewriting the forward link of any record leaves every live order as it was |
| `OrderBook.PartitionTake` | common/src/mem_pool.rs:197-201 | index and free stack still partition the slots when one is taken |
| `OrderBook.PartitionReturn` | common/src/mem_pool.rs:294-297 | index and free stack still partition the slots when one is given back |
| `OrderBook.GrownAgrees` | exchange/src/order_book.rs:160-193 | levels carry count and total quantity (modulo 2^32) of the live orders after an add |
| `OrderBook.ShrunkAgrees` | exchange/src/order_book.rs:271-278 | and after a cancel, with the level gone exactly when its last order is |
| `OrderBook.LevelPricesAreLivePrices` | exchange/src/order_book.rs:82-91 | a side has a level at a price exactly when some live order quotes it |
| `OrderBook.OrderBook.BestBid` | exchange/src/order_book.rs:301-303 | the highest price of a live buy, or none if there is no live buy |
| `OrderBook.OrderBook.BestAsk` | exchange/src/order_book.rs:306-308 | the lowest price of a live sell, or none if there is no live sell |
| `MatchingEngine.SideOf` | exchange/src/matching_engine.rs:92-105 | only the two side codes parse, each to its side |
| `MatchingEngine.AnswerDescribesChange` | exchange/src/matching_engine.rs:50-226 | supporting fact for `EngineRuns.AnswersReproduceBooks`: the answer echoes the request and describes exactly the one order that appeared or went, with all its quantity; the published update says the same; a rejection means no live order changed |
| `MatchingEngine.RejectedRequestsChangeNothing` | exchange/src/matching_engine.rs:232-302 | supporting fact: a request publishes nothing exactly when it is rejected, and then all books stay as they were |
| `MatchingEngine.MatchingEngine.AddTicker` | exchange/src/matching_engine.rs:39-43 | a new ticker gets an empty book, a known one keeps its book |
| `MatchingEngine.MatchingEngine.ProcessRequest` | exchange/src/matching_engine.rs:50-59 | the engine over the real books does what `Process` does over live orders |
| `MatchingEngine.MatchingEngine.HandleNewOrder` | exchange/src/matching_engine.rs:65-159 | routes to the book of the ticker, under the next id, and leaves all other books alone |
| `MatchingEngine.MatchingEngine.HandleCancel` | exchange/src/matching_engine.rs:166-229 | cancels in the book of the ticker and leaves all other books alone |
| `EngineRuns.NewOrderAnswer` | exchange/src/matching_engine.rs:65-159 | over every command sequence: a new order is accepted exactly if its ticker was added earlier, its side is 1 or -1, the replayed book of the ticker holds fewer than 65536 orders and not the id whose turn it is, which cannot be before the ids have gone round; every field of the answer and of the update |
| `EngineRuns.CancelAnswer` | exchange/src/matching_engine.rs:166-229 | a cancel succeeds exactly if the replayed book of its ticker holds the order; every field of the answer, with nothing executed and all of it left, and of the update |
| `EngineRuns.UnknownRequestAnswer` | exchange/src/matching_engine.rs:50-59 | a request of any other type is refused and changes nothing |
| `EngineRuns.TickersAndIds` | exchange/src/matching_engine.rs:39-112 | the tickers with a book are those added, and the next id counts the new orders for a known ticker with a proper side, modulo 2^64 |
| `EngineRuns.ReplayReproducesBooks` | exchange/src/matching_engine.rs:132-143 | for every command sequence, folding the published updates from nothing gives for every ticker exactly the live orders (id, side, price, quantity) |
| `EngineRuns.AnswersReproduceBooks` | exchange/src/matching_engine.rs:50-226 | for every command sequence, folding all answers to clients from nothing also gives exactly the live orders of every ticker, so answers and published updates tell the same story |
| `EngineRuns.OwnAnswersShowOwnOrders` | exchange/src/matching_engine.rs:106-229 | a client that follows only its own answers has every live order it owns in its view, as it is in the book |
| `EngineRuns.TimePriorityIsConsistent` | exchange/src/matching_engine.rs:106-143 | until the id counter has gone round: ids are unique across tickers and below the next, no add is refused as a duplicate, and ids rank the orders of a book as its priorities do |
| `EngineRuns.BooksAreRanked` | exchange/src/order_book.rs:120-215 | the priority of a live order is its place among all the orders ever added to its book, modulo 2^64 |
| `Protocol.RequestTypeOf` | exchange/src/protocol.rs:20-31 | inverse of the request type codes |
| `Protocol.ResponseTypeOf` | exchange/src/protocol.rs:43-57 | inverse of the response type codes |
| `Protocol.UpdateTypeOf` | exchange/src/protocol.rs:70-85 | inverse of the update type codes |
| `Protocol.LayoutSizes` | exchange/src/protocol.rs:312-319 | the packed messages are 30, 42 and 34 bytes |
| `Protocol.RequestRoundTrip` | exchange/src/protocol.rs:100-151 | a request survives encoding and decoding |
| `Protocol.RequestFrameRoundTrip` | exchange/src/protocol.rs:142-151 | any 30 bytes are the encoding of the request they decode to |
| `Protocol.ResponseRoundTrip` | exchange/src/protocol.rs:172-229 | a response survives encoding and decoding |
| `Protocol.ResponseFrameRoundTrip` | exchange/src/protocol.rs:220-229 | any 42 bytes are the encoding of the response they decode to |
| `Protocol.UpdateRoundTrip` | exchange/src/protocol.rs:248-299 | a market update survives encoding and decoding |
| `Protocol.UpdateFrameRoundTrip` | exchange/src/protocol.rs:290-299 | any 34 bytes are the encoding of the update they decode to |
| `WireFormat.RequestOnWire` | exchange/src/protocol.rs:100-110 | each field of a request at its offset, least significant byte first, in two's complement |
| `WireFormat.ResponseOnWire` | exchange/src/protocol.rs:172-184 | each field of a response at its offset |
| `WireFormat.UpdateOnWire` | exchange/src/protocol.rs:248-258 | each field of a market update at its offset |
| `Framing.FramesAppend` | exchange/src/order_server.rs:114-126 | cutting a stream that arrives in two parts gives the frames of the whole |
| `OrderServer.ClientConnection.Receive` | exchange/src/order_server.rs:90-130 | returns the requests in buffer plus new bytes and keeps the incomplete rest; an end of file or an error disconnects and changes nothing |
| `OrderServer.ClientConnection.ParseMessages` | exchange/src/order_server.rs:114-126 | the loop takes every complete frame in order and never skips a byte |
| `OrderServer.SessionIsOneRead` | exchange/src/order_server.rs:90-130 | over any sequence of reads, stopping at the first that disconnects, a connection hands out the requests in all the bytes read before it, and is open exactly if no read disconnected it |
| `OrderServer.DecodeEncode` | exchange/src/order_server.rs:114-126 | the requests a stream carries encode to all of it but an incomplete frame at its end |
| `OrderServer.SessionLosesNothing` | exchange/src/order_server.rs:90-130 | what was handed out, encoded, and what is still buffered, less than a frame, are together exactly the bytes read before the close |
| `OrderServer.ChunkingDoesNotMatter` | exchange/src/order_server.rs:90-130 | however the encoding of a request list is cut into reads before the connection closes, if it does, exactly that list comes out and nothing stays buffered |
| `OrderServer.CutOffSession` | exchange/src/order_server.rs:96-113 | if the encoding of a list is cut off anywhere, exactly its first requests come out, as many as were complete |
| `OrderServer.OrderServer.AcceptConnections` | exchange/src/order_server.rs:306-331 | each connection takes the next id, kept or not |
| `OrderServer.ServedWhileOpen` | exchange/src/order_server.rs:241-331 | over all polls a connection is served exactly from the poll whose accept entry of its number succeeds to the first poll whose read disconnects it |
| `OrderServer.OrderServer.PollOnce` | exchange/src/order_server.rs:241-277 | numbers what each client contributes in walking order, drops the disconnected, and the final sort changes nothing |
| `OrderServer.OrderServer.NumberRequests` | exchange/src/order_server.rs:49-51 | each request takes the next sequence number |
| `OrderServer.OutputIsFaithfulInterleaving` | exchange/src/order_server.rs:241-277 | over all polls and any walking orders the sequence numbers are 1, 2, 3, ... and each client's subsequence is exactly what the bytes it sent while open, by the accepts and reads of the polls, decode to |
| `Sequencer.SortChangesNothing` | exchange/src/order_server.rs:273-274 | any sort by sequence number leaves a strictly ascending sequence as it is |
| `Sequencer.ShareIsContribution` | exchange/src/order_server.rs:250-262 | a client visited once finds its requests in the output in its own order |
| `OrderGateway.OrderGateway.SendNewOrder` | trading/src/order_gateway.rs:82-121 | the order is pending under the next id |
| `OrderGateway.OrderGateway.PollOnce` | trading/src/order_gateway.rs:160-214 | at most one frame per call; a terminal response ends the order it names |
| `OrderGateway.PendingExactly` | trading/src/order_gateway.rs:82-214 | over every run an order is pending, as it was sent, exactly if it was sent and no response returned since has cancelled, rejected or fully filled it |
| `OrderGateway.ResponsesAreFrames` | trading/src/order_gateway.rs:160-214 | over every run the k-th response is the k-th 42-byte frame of the stream, none skipped; order ids are 1, 2, 3, ... and a new id is never pending |
| `OrderGateway.PollAnswersWhenComplete` | trading/src/order_gateway.rs:178-213 | a poll answers exactly when it reads without error and a frame is complete |
| `MarketData.MarketDataReceiver.ProcessUpdate` | trading/src/market_data.rs:141-213 | the update changes only the best bid and offer of its ticker, as specified by `BboStep` |
| `QuoteHistory.QuoteIs` | trading/src/market_data.rs:141-213 | after any updates: the price of a side is the best quoted since the last clear, and its quantity is that of the last quote at that price less what cancels and trades at it took since, none after a cancel of quantity zero |
| `TradeRuns.BboViewsAgree` | trading/src/trade_engine.rs:281-340 | in every run without `update_bbo`, resets included, the trade engine and a receiver started at the last reset see the same best bid and offer of every ticker |
| `TradeHistory.EngineBboIs` | trading/src/trade_engine.rs:281-359 | over every run the engine's best bid and offer of a ticker is the one last set by `update_bbo`, or none after a reset, followed through the market updates since |
| `ClientView.AskIsLowest` | trading/src/market_data.rs:169-178 | the ask is the lowest sell price ever added |
| `ClientView.BidIsHighestIff` | trading/src/market_data.rs:160-168 | folding buy prices as the receiver does gives the highest of them exactly when none at the invalid price came before a last one at another |
| `ClientView.ClientBboIsSound` | trading/src/market_data.rs:141-213 | fed everything the matching engine publishes, over every command sequence: the ask is the lowest sell price added, bounds the true best ask and is it while nothing was cancelled; the bid is the highest buy price added exactly when no buy at the invalid price came before a last one at another, then bounds the true best bid, and while nothing was cancelled is the true one under that condition only |
| `ClientView.SentinelHidesBid` | trading/src/market_data.rs:160-168 | buys at 100, at the invalid price and at 50 leave the client's bid at 50 while the order at 100 is live |
| `Position.Position.OnFill` | trading/src/position.rs:50-100 | opening, reducing, closing, flipping and adding fills, as one formula for realized profit, average and unrealized profit |
| `Position.Position.UpdateUnrealized` | trading/src/position.rs:149-159 | position times the distance from the average, long or short |
| `Position.Position.UpdateMarketPrice` | trading/src/position.rs:119-122 | re-marks the position at the price |
| `Position.Position.AddOpenOrder` | trading/src/position.rs:103-108 | open quantity of the side grows, as a 32-bit word that wraps |
| `Position.Position.RemoveOpenOrder` | trading/src/position.rs:111-116 | open quantity of the side shrinks, not below zero |
| `PositionRuns.PnlConservation` | trading/src/position.rs:50-100 | over every run of fills and marks, position and volume are the sums of the fills, the last price is that of the last fill or mark, and profit is net cash plus position at that price plus exactly the accumulated remainders of the truncated averages |
| `PositionRuns.StepBasis` | trading/src/position.rs:66-94 | only an adding fill drifts, by its truncation remainder, up when long and down when short |
| `PositionRuns.DriftWithinBudget` | trading/src/position.rs:90-94 | each adding fill drifts by less than the position it leaves |
| `PositionRuns.FlatBookRealizesCash` | trading/src/position.rs:69-89 | a flat position has realized its net cash plus the drift, which is none if all adds divide evenly |
| `PositionRuns.AverageWithinEntries` | trading/src/position.rs:66-94 | the average of an open position lies between two of its entry prices, for prices of any sign |
| `Arithmetic.TruncRem` | trading/src/position.rs:93 | truncating division leaves a remainder smaller than the divisor with the sign of the dividend |
| `Position.PositionKeeper.OnFill` | trading/src/position.rs:192-196 | fills one position, creating it if needed, and refreshes the total |
| `Position.PositionKeeper.UpdateMarketPrice` | trading/src/position.rs:199-204 | marks a known position and refreshes the total |
| `Position.PositionKeeper.RecalculateTotalPnl` | trading/src/position.rs:218-220 | the total is the sum over all tickers |
| `TradeRuns.CachedPnlIsFresh` | trading/src/position.rs:185-220 | in every run of the trade engine, resets included, the cached total is the sum of realized and unrealized profit, although other methods change positions behind it |
| `Risk.RiskManager.constructor` | trading/src/risk.rs:83-89 | no ticker has limits of its own |
| `Risk.RiskManager.SetLimits` | trading/src/risk.rs:92-94 | the ticker has these limits |
| `Risk.RiskManager.RemoveLimits` | trading/src/risk.rs:102-104 | the ticker has none of its own |
| `Risk.TableHoldsLimitsInForce` | trading/src/risk.rs:92-104 | after any changes the limits found for a ticker are those its last change set, and the defaults if it removed them or there was none |
| `Risk.VerdictOfLimitsInForce` | trading/src/risk.rs:115-215 | after any changes of limits, each verdict and each reason, in order of precedence, from the limits in force for the ticker of the position |
| `Risk.OtherTickersUntouched` | trading/src/risk.rs:92-127 | a change for one ticker changes no verdict on another |
| `Risk.CheckOrder` | trading/src/risk.rs:115-160 | allowed exactly when the size, the projected position (unless the order reduces risk) and the loss are within limits |
| `Risk.CheckOpenOrders` | trading/src/risk.rs:163-175 | allowed exactly below the open order limit |
| `Risk.CheckOrderWithOpenOrders` | trading/src/risk.rs:199-215 | allowed exactly when both checks allow it; too many open orders is reported first |
| `TradeEngine.TradeEngine.ChangeLimits` | trading/src/trade_engine.rs:223-226 | only the limits change |
| `TradeEngine.TradeEngine.SubmitOrder` | trading/src/trade_engine.rs:471-515 | rejects with the reason of the risk check, or tracks the order and its open quantity |
| `TradeEngine.TradeEngine.OnResponse` | trading/src/trade_engine.rs:373-435 | fills, partial fills, cancels and rejects as specified by `Respond` |
| `TradeEngine.TradeEngine.OnFillResponse` | trading/src/trade_engine.rs:387-411 | trades the position of a tracked order; a final fill also drops the count, tracked or not |
| `TradeEngine.TradeEngine.OnMarketUpdate` | trading/src/trade_engine.rs:281-346 | updates the best bid and offer, and marks the position on a trade |
| `TradeEngine.TradeEngine.UpdateBbo` | trading/src/trade_engine.rs:351-359 | marks the position at the mid price if both sides are valid |
| `TradeHistory.TrackedExactly` | trading/src/trade_engine.rs:373-515 | over every well-formed run an order is tracked exactly if it was submitted and passed, under its id, and since then neither a reset nor a Canceled, CancelRejected, InvalidRequest or final Filled response named it; it is tracked as submitted, and its leaves are its quantity less the executions of its fills |
| `TradeHistory.PositionIsItsTrades` | trading/src/trade_engine.rs:281-435 | over every well-formed run the position of a ticker is, but for its open quantities, what the fills of its open orders, on their side and at their price, and its marks make in order |
| `TradeHistory.EngineProfit` | trading/src/trade_engine.rs:281-435 | so the position is the signed sum of its fills, and its profit their cash flow plus the position at the last price traded or marked, up to the truncation remainders |
| `TradeHistory.SubmissionVerdict` | trading/src/trade_engine.rs:445-483 | each verdict and reason for a submission, from the limits the run put in force, the number of tracked orders and the position and profit its trades make |
| `TradeRuns.EngineLimits` | trading/src/trade_engine.rs:223-226 | the limits enforced for a ticker are those that the events of the run put in force |
| `TradeRuns.CountersAgree` | trading/src/trade_engine.rs:373-515 | over every well-formed run without reset in which the ticker's 32-bit words do not wrap, its open order count is its number of tracked orders and its open quantities are the sums of their leaves |
| `TradeRuns.StepAgreesIff` | trading/src/trade_engine.rs:373-515 | from agreement, an event other than a reset keeps it exactly when no count or open quantity wraps |
| `Overshoot.AgreementKeptIff` | trading/src/position.rs:103-108 | with checks on and without reset the counters of a ticker agree with its tracked orders in every run exactly when max_open_orders * max_order_qty is below 2^32 or no order of positive quantity can get through |
| `TradeRuns.CountsAgree` | trading/src/trade_engine.rs:373-515 | with checks on, over every well-formed run, resets and wrapping open quantities included, the open order count is the number of tracked orders |
| `TradeRuns.OpenQuantitiesCover` | trading/src/trade_engine.rs:373-515 | over every well-formed run without wrapping, resets included, the open quantities are at least what is tracked |
| `TradeRuns.CountersCover` | trading/src/trade_engine.rs:393-432 | where count and tracked orders agree and the open quantity covers what is tracked, the saturating subtractions do not saturate |
| `TradeRuns.UntrackedFinalFill` | trading/src/trade_engine.rs:403-407 | a final fill of an untracked order keeps the count right only if its ticker has no tracked orders |
| `TradeEngine.TradeEngine.ResetState` | trading/src/trade_engine.rs:676-689 | forgets orders, counts and quotes but keeps positions with their open quantities |
| `TradeRuns.ResetAgreesIff` | trading/src/trade_engine.rs:676-689 | a reset keeps counters and tracked orders in agreement exactly when nothing was left of any tracked order |
| `TradeRuns.RunningNumbersAreFresh` | trading/src/trade_engine.rs:485-491 | without a submit callback the generated id is never in use, resets included |
| `Exposure.ExposureBound` | trading/src/risk.rs:115-215 | over every well-formed run without reset, if max_open_orders * max_order_qty is below 2^32, position plus open buys, and minus position plus open sells, stay within max(0, max_position, max_open_orders * max_order_qty - 1), hence so does the absolute position; for any limits that those the events put in force never exceed |
| `Exposure.PositionBound` | trading/src/risk.rs:115-215 | the same bound over every well-formed run in which the open quantities do not wrap, resets included: it holds of the position plus what is left of its tracked buys, of the mirror image, and of the absolute position; for any limits that those the events put in force never exceed |
| `Exposure.PositionBoundRegardless` | trading/src/risk.rs:115-215 | under any limits, with resets and wrapping, the absolute position stays within max(0, max_position) + max_open_orders * max_order_qty; for any limits that those the events put in force never exceed |
| `Exposure.OneOrderStaysWithin` | trading/src/risk.rs:163-175 | with at most one open order, or orders of quantity zero only, the first bound holds in every well-formed run, resets and wrapping included |
| `Exposure.LimitsFit` | trading/src/position.rs:103-108 | without reset, no word of a ticker wraps if max_open_orders * max_order_qty is below 2^32 |
| `Exposure.PositionLimitFits` | trading/src/risk.rs:144-154 | no word wraps in a run without exemption if max_position is below 2^32, resets included |
| `Exposure.LimitHoldsWithoutExemption` | trading/src/risk.rs:137-154 | a run that never uses the risk-reducing exemption keeps the position within max_position if that is below 2^32, or if max_open_orders * max_order_qty is and nothing is reset |
| `Overshoot.BoundIsReached` | trading/src/risk.rs:137-142 | a run of one sale and a full set of risk-reducing buys ends exactly at max_open_orders * max_order_qty - 1 |
| `Overshoot.HiddenByWrapping` | trading/src/position.rs:103-108 | open buys that add up to 2^32 show as an open quantity of zero; behind them the position climbs to max_position, and filling them ends at max_position + 2^32 - max_order_qty |
| `Overshoot.HiddenByResets` | trading/src/trade_engine.rs:676-689 | resets leave open quantity behind until it is one below 2^32; the next order wraps it to zero, and the run ends at max_position + 1 |
| `Overshoot.WrappingRunOvershoots` | trading/src/position.rs:103-108 | max_order_qty 2^31, max_open_orders 4, max_position 2^33, max_loss 0: an explicit run, which sets these limits and then has ten events without exemption or reset, ends at 5 * 2^31 |
| `Overshoot.LimitKeptIff` | trading/src/risk.rs:127-160 | for each of the four kinds of run, with or without resets and with or without exempt orders: max_position is kept in every such run, with limits fixed or changing but never above these, exactly when it is not negative and either no positive quantity can trade (it is zero, or max_loss is negative), or (exempt orders) max_open_orders * max_order_qty is at most max_position + 1 and the words suffice, or (no exempt orders) max_position is below 2^32 or the words suffice; words suffice without resets when that product is below 2^32, and with them when at most one order may be open or all have quantity zero |
| `Exposure.CountersBounded` | trading/src/risk.rs:163-175 | without reset, if max_open_orders * max_order_qty is below 2^32, the open order count stays within its limit and the open quantities within that product |
| `Exposure.CountBounded` | trading/src/risk.rs:163-175 | the open order count stays within its limit in every well-formed run |
| `LiquidityTaker.LiquidityTaker.OnFeatures` | trading/src/strategies/liquidity_taker.rs:224-278 | takes at most one order, only when the interval allows it, and records it |
| `LiquidityTaker.LiquidityTaker.RecordOrder` | trading/src/strategies/liquidity_taker.rs:299-306 | remembers the time and lengthens the interval up to ten times the minimum |
| `LiquidityTaker.LiquidityTaker.OnFill` | trading/src/strategies/liquidity_taker.rs:369-373 | halves the interval, not below the minimum |
| `LiquidityTaker.LiquidityTaker.ResetCooldown` | trading/src/strategies/liquidity_taker.rs:309-311 | the interval is the minimum again |
| `LiquidityTaker.TakesSide` | trading/src/strategies/liquidity_taker.rs:224-296 | over every run, exactly when the taker buys and exactly when it sells, from the times of its orders and the position and activity last reported |
| `LiquidityTaker.FillsRelax` | trading/src/strategies/liquidity_taker.rs:369-373 | k fills in a row divide the interval by 2^k, not below the minimum |
| `LiquidityTaker.OrderCools` | trading/src/strategies/liquidity_taker.rs:299-306 | an order lengthens the interval by the cooldown, up to ten times the minimum |
| `LiquidityTaker.OrdersAreSpaced` | trading/src/strategies/liquidity_taker.rs:291-306 | under any mix of signals, fills and cooldown resets the interval stays within one and ten times the minimum and orders are at least the minimum apart |
| `LiquidityTaker.WindowLimit` | trading/src/strategies/liquidity_taker.rs:291-306 | any closed window of length w sees at most w / min + 1 orders |

## Left out

- Order matching and `get_order`: the source has stubs only.
- A well-formed first-in-first-out list at each price level: the source never sets a forward link, so it is not true of it.
- `Logger::flush`: the writer can acknowledge a flush without having written an entry pushed before it; the level filter and the formatting of entries are not modelled either.
- `len` and `is_full` read by a third thread: the two loads happen at different times, so the difference is only approximate.
- Weak memory: the queue's loads and stores are sequentially consistent.
- Arithmetic of 64-bit prices, positions, volumes, profit and submission counts is unbounded; overflow of these is not modelled. A debug build stops where the 32-bit words of the model wrap.
- Sequence numbers, connection ids and the gateway's order ids are unbounded counters; the matching engine's order ids and priorities do wrap at 2^64.
- The trade engine's tables start empty: entries the source inserts up front for configured tickers hold the defaults that a lookup gives anyway.
- `PoolPtr` handles and raw pointers: a slot is its index, and storage is an array of optional records.
- Floating point: the liquidity taker's thresholds, quantity scaling and price, and the features and market maker strategies; the effect of the cooldown factor is a function that does not shorten an interval.
- The wrap of the rate limiter's time sum at 2^64.
- Switching risk checks on or off while running: the bounds are about runs with checks on.
- `check_position`, which only reports, and `cancel_order` and `send_cancel`, which only send.
- The exchange's market data publisher, sockets, clocks, statistics and command lines.
