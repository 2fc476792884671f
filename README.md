# crypto-spring, modelled in Dafny

crypto-spring is a small automated trading bot for a cryptocurrency exchange.
Every minute, for each configured instrument (a "position configuration"),
the position manager does four things:

- It counts the instrument's outstanding orders.
- While the count is below the configured maximum, it asks the configured
  strategy whether to open a position.
- On a yes, it opens a position.
- The position buys with a market order for the configured funds. It polls
  the order until it is done. When the buy is filled, it places a limit
  sell order priced to recover the funds plus the fee.

Reference data comes from a product cache that is loaded once at start-up.
Prices come from a streaming connection that keeps the latest tick per
instrument. A self-healing socket layer reconnects whenever the connection
is closed or is silent too long.

The model follows the code file by file:

| file | module | form |
|---|---|---|
| `common.dfy` | `Common` | `Option`; `Reply` (a single reactive answer: a value, nothing, or an error); `ListReply` (a stream of items, or an error) |
| `decimals.dfy` | `Decimals` | the arbitrary-precision decimal arithmetic the code relies on: exact add, subtract and multiply; rescaling and division with the rounding modes CEILING, FLOOR and HALF_UP |
| `api.dfy` | `Api` | the exchange's records: order, product, account, position configuration, order request, price tick |
| `execution.dfy` | `PositionExecution` | post once, then poll under a retry budget; a method with a loop, proved against a specification function |
| `position.dfy` | `Positions` | the position as a class whose methods append to its state log; the sell arithmetic and the whole lifecycle |
| `products.dfy` | `Products` | the product cache as a class; loading as a loop proved against a fold |
| `strategies.dfy` | `Strategies` | the always-true, always-false and day-range strategies; the day-range strategy as a class with a decision map and a funds check |
| `manager.dfy` | `Manager` | the manager as a class owning the map of positions |
| `coinbase.dfy` | `CoinbaseStream` | the streaming handler as a class owning the tick map; the signed subscription message |
| `websockets.dfy` | `WebSockets` | the session checker and the reconnecting client as classes |

These things are parameters rather than modelled behaviour:

- **The exchange.** The reply to the post, the successive answers to the
  polls, the product lookups, the order listing and the account listing are
  oracle values (`Exchange`, `getProduct`, `ListReply`).
- **Signing.** Request signing is a function parameter (`Signer`).
- **New position ids.** The random position id is a parameter.
- **Clocks.** Every clock reading is an integer `now` (nanoseconds for the
  socket checker). A timestamp string is a parameter.
- **Two numeric limits.** The retry budget is a field of `Exchange`. The
  staleness threshold is `DefaultWebSocketHandler.staleSeconds`. The
  application uses 60 s.

Disagreements between the design notes and the code, where the model follows
the code:

- **Fee coverage.** The design says the sell proceeds always cover the buy
  funds plus the fee. The code divides the funds by the size with HALF_UP
  (`src/main/java/allanlewis/positions/Position.kt:93`), and that quotient
  can round down.
  - `Positions.SellProceedsCanFallShortOfFunds` shows funds 10, no fee, sell
    fraction 1 and a bought size of 3.3: the price is 3, and 3 × 3.3 = 9.9 is
    below 10.0.
  - What the code does guarantee is `Positions.SellShortfallBound`.
  - The design's own example of a 0.0002 size is covered
    (`Positions.SellCoversFundsExample`).
- **Price scale.** The design rounds the sell price at the price increment's
  scale. The code rounds it up to a whole number (`setScale(0, CEILING)`).
- **Stale ticks.** The design says a stale tick makes the day-range strategy
  refuse. The code keeps the last decision per instrument with no age check,
  and so does the model.
- **Retry budget.** The code fixes 5 retries
  (`src/main/java/allanlewis/positions/PositionExecution.kt:16`). Other
  versions of the system used 10. It is a parameter here.
- **Log length.** The design counts four transitions on the happy path. The
  code also records the first change, from New to Started
  (`src/main/java/allanlewis/positions/Position.kt:124-131`). So the model's
  happy-path log has five records (`Positions.HappyPath`).

## Model

| member | source | states |
|---|---|---|
| `Decimals.Add` | src/main/java/allanlewis/positions/Position.kt:84 | the sum is exact, at the larger scale |
| `Decimals.Subtract` | src/main/java/allanlewis/positions/PositionStrategies.kt:92-94 | the difference is exact, at the larger scale |
| `Decimals.DivRoundPositive` | src/main/java/allanlewis/positions/Position.kt:88-93 | the integer quotient lies within the bounds of each rounding mode; HALF_UP breaks ties away from zero |
| `Decimals.SetScale` | src/main/java/allanlewis/positions/Position.kt:86-93 | rescaling up is exact; rescaling down lands within one unit; CEILING never decreases the value and FLOOR never increases it |
| `Decimals.Divide` | src/main/java/allanlewis/positions/Position.kt:93 | division by zero fails (ArithmeticException); otherwise the result has the dividend's scale and, for a positive divisor, lies within the chosen mode's bound of the exact quotient, a HALF_UP tie going away from zero |
| `Decimals.CeilingWithinUnit` | src/main/java/allanlewis/positions/Position.kt:86-88 | rounding up to a scale lands less than one unit of the last kept digit above the value |
| `Decimals.FloorWithinUnit` | src/main/java/allanlewis/positions/Position.kt:90-92 | rounding down to a scale lands less than one unit of the last kept digit below the value |
| `PositionExecution.FirstAccepted` | src/main/java/allanlewis/positions/PositionExecution.kt:16-31 | the first attempt whose answer passes the done predicate; every earlier attempt fails it |
| `PositionExecution.ExecuteSpec` | src/main/java/allanlewis/positions/PositionExecution.kt:14-31 | failed or empty post: final, with no polls; otherwise success iff some attempt within budget + 1 is accepted; the result is the first accepted snapshot, found by the last poll; exhaustion spends all budget + 1 polls and reports the last failure |
| `PositionExecution.Execute` | src/main/java/allanlewis/positions/PositionExecution.kt:14-31 | posts the request once, then polls only the posted order's id; the outcome and the number of polls are those of `ExecuteSpec` |
| `PositionExecution.DoneIsNotPending` | src/main/java/allanlewis/positions/PositionExecution.kt:37-51 | "done" implies "not pending"; an order with no status, or an "open" one, is not done but no longer pending |
| `PositionExecution.ExhaustedConsumesBudget` | src/main/java/allanlewis/positions/PositionExecution.kt:16 | if no answer within the budget passes, the execution fails after exactly budget + 1 polls |
| `PositionExecution.FirstDoneWins` | src/main/java/allanlewis/positions/PositionExecution.kt:19-31 | the snapshot accepted after k rejected ones is the result, found with k + 1 polls |
| `PositionExecution.ReplayedSnapshot` | src/main/java/allanlewis/positions/PositionExecution.kt:14-23 | when every poll replays one snapshot, that snapshot decides: accepted after one poll, or the whole budget spent |
| `Positions.BuyStateRule` | src/main/java/allanlewis/positions/Position.kt:40-48 | buy leg: filled iff done/filled; canceled iff done/canceled; failed otherwise, an "open" buy included |
| `Positions.SellStateRule` | src/main/java/allanlewis/positions/Position.kt:69-78 | sell leg: open iff status "open"; then filled, canceled and failed as for the buy leg |
| `Positions.RecordsShape` | src/main/java/allanlewis/positions/Position.kt:124-131 | the i-th record goes to the i-th state passed through, stamped with the clock reading |
| `Positions.RecordsLegal` | src/main/java/allanlewis/positions/Position.kt:124-131 | the records of a path of allowed transitions are all allowed transitions |
| `Positions.SellTermsDefined` | src/main/java/allanlewis/positions/Position.kt:90-93 | the sell arithmetic fails exactly when the size, floored at the base scale, is zero |
| `Positions.SellTermsRounding` | src/main/java/allanlewis/positions/Position.kt:84-93 | the funds are the fee-inclusive funds rounded up at the quote scale, not below them and less than one quote unit above; the size is the sold share rounded down at the base scale, not above it and less than one base unit below, and is not zero; the price is the least whole number not below the HALF_UP quotient |
| `Positions.SellShortfallBound` | src/main/java/allanlewis/positions/Position.kt:84-93 | price × size falls short of the funds by at most half a unit of the funds' last digit per unit of size |
| `Positions.SellCoversFundsExample` | src/main/java/allanlewis/positions/Position.kt:84-93 | funds 10, fee 0.005, sell 0.99, size 0.0002: sells 0.00019800 at 50758, covering the 10.05 |
| `Positions.SellProceedsCanFallShortOfFunds` | src/main/java/allanlewis/positions/Position.kt:93 | funds 10, fee 0, sell 1, bought 3.3: price 3, so the proceeds 9.9 are below the funds 10.0 |
| `Positions.BuyOrderFor` | src/main/java/allanlewis/positions/Position.kt:55-66 | a market buy of the instrument for the configured funds, client id "B" + position id |
| `Positions.SellOrderFor` | src/main/java/allanlewis/positions/Position.kt:81-105 | a sell of the computed size at the computed price, client id "S" + position id; none exactly where the arithmetic throws |
| `Positions.Position.constructor` | src/main/java/allanlewis/positions/Position.kt:17-31 | a position starts in New with an empty log and no orders |
| `Positions.Position.ChangeState` | src/main/java/allanlewis/positions/Position.kt:124-131 | the new state is set and one record from the old state to it is appended; the log still replays to the state |
| `Positions.Position.ChangeStateFor` | src/main/java/allanlewis/positions/Position.kt:107-122 | the state is the open, filled, canceled or default state chosen by status and done reason, recorded once |
| `Positions.Position.Init` | src/main/java/allanlewis/positions/Position.kt:33-37 | records Started then BuyOrderPending, and yields the market buy request |
| `Positions.Position.SellPosition` | src/main/java/allanlewis/positions/Position.kt:68-105 | with no filled size nothing happens; otherwise records SellOrderPending, then yields the sell request (none if the arithmetic throws) |
| `Positions.Position.BuyCompleted` | src/main/java/allanlewis/positions/Position.kt:39-53 | a snapshot is mapped to a buy state and kept; an error records BuyOrderFailed; the sell is attempted exactly when the position is then BuyOrderFilled |
| `Positions.Position.SellCompleted` | src/main/java/allanlewis/positions/Position.kt:68-79 | a snapshot is mapped to a sell state and kept; an error records SellOrderFailed; an empty result changes nothing |
| `Positions.Position.Json` | src/main/java/allanlewis/positions/Position.kt:133-139 | the snapshot carries the id, state, both orders and the whole log |
| `Positions.BuyPhase` | src/main/java/allanlewis/positions/Position.kt:33-66 | a fresh position is started, its market buy is posted first, its log is the records of the buy path, and the sell request exists exactly when the sell is placed |
| `Positions.LifecycleRecords` | src/main/java/allanlewis/positions/Position.kt:124-131 | the log of any path a position takes replays to the path's end and holds only allowed transitions |
| `Positions.Lifecycle` | src/main/java/allanlewis/positions/Position.kt:33-105 | a fresh position's log is the records of `LifecycleSteps` and consists only of allowed transitions; the buy is posted first; the sell is posted, after the buy's polls, exactly when it is placed |
| `Positions.LifecycleLegal` | src/main/java/allanlewis/positions/Position.kt:33-122 | whatever the exchange answers, a position only makes state-machine transitions |
| `Positions.SellOnlyAfterFilledBuy` | src/main/java/allanlewis/positions/Position.kt:49-51 | SellOrderPending is reached iff the buy completed done/filled with a filled size |
| `Positions.HappyPathSellTerms` | src/main/java/allanlewis/positions/Position.kt:84-93 | funds 10, fee 0.005, sell 0.99, bought 10: funds 10.05, size 9.90000000, price 2 |
| `Positions.FilledBuySteps` | src/main/java/allanlewis/positions/Position.kt:39-52 | a buy completed with a filled size moves to BuyOrderFilled and on to the sell's SellOrderPending |
| `Positions.FilledThenOpen` | src/main/java/allanlewis/positions/Position.kt:33-79 | with a filled buy and sell terms defined, an open sell gives the path Started, BuyOrderPending, BuyOrderFilled, SellOrderPending, SellOrderOpen |
| `Positions.HappyPath` | src/main/java/allanlewis/positions/Position.kt:33-79 | a filled buy and an open sell give Started, BuyOrderPending, BuyOrderFilled, SellOrderPending, SellOrderOpen |
| `Products.Load` | src/main/java/allanlewis/products/ProductRepository.kt:17-36 | the cache only grows; an abort names a configuration whose lookup failed; the load completes iff no lookup fails |
| `Products.LoadedExactly` | src/main/java/allanlewis/products/ProductRepository.kt:17-36 | after a complete load, an id is cached iff it was cached before or a configuration names it and its lookup found a product, which is then its entry |
| `Products.ProductRepository.Init` | src/main/java/allanlewis/products/ProductRepository.kt:17-36 | the loop's cache and result are those of `Load` |
| `Products.ProductRepository.Product` | src/main/java/allanlewis/products/ProductRepository.kt:42-44 | the cached product iff the id is cached |
| `Products.ProductRepository.Products` | src/main/java/allanlewis/products/ProductRepository.kt:38-40 | exactly the cached products |
| `Strategies.Gate` | src/main/java/allanlewis/positions/PositionStrategies.kt:53-65 | true iff funds are sufficient and the strategy says open; insufficient funds give false; a missing or failed check passes through |
| `Strategies.FirstAccount` | src/main/java/allanlewis/positions/PositionStrategies.kt:121 | the first account in the currency, none iff there is no such account |
| `Strategies.MinFundsWithoutConfig` | src/main/java/allanlewis/positions/PositionStrategies.kt:113-118 | with no matching configuration the minimum is zero |
| `Strategies.MinFundsIsLastMatch` | src/main/java/allanlewis/positions/PositionStrategies.kt:113-118 | otherwise it is the funds of the last matching configuration |
| `Strategies.FundsCheck` | src/main/java/allanlewis/positions/PositionStrategies.kt:120-126 | nothing without a product or account; an error when accounts fail; otherwise balance strictly above the minimum |
| `Strategies.BandInsideRange` | src/main/java/allanlewis/positions/PositionStrategies.kt:89-94 | a well-formed 24-hour range puts the band inside it; an inverted one makes the band empty |
| `Strategies.DecisionWithinRange` | src/main/java/allanlewis/positions/PositionStrategies.kt:86-97 | an open decision means the price is strictly inside the 24-hour range |
| `Strategies.DayRangeExample` | src/main/java/allanlewis/positions/PositionStrategies.kt:86-97 | range 40000..50000: 45000 opens; 41000, 42500 and 49000 do not |
| `Strategies.DayRangeStrategy.Decide` | src/main/java/allanlewis/positions/PositionStrategies.kt:86-102 | only the tick's instrument's decision is replaced, by the band decision |
| `Strategies.DayRangeStrategy.ShouldOpen` | src/main/java/allanlewis/positions/PositionStrategies.kt:104-110 | the latest decision, false before any tick |
| `Strategies.DayRangeStrategy.CheckFunds` | src/main/java/allanlewis/positions/PositionStrategies.kt:112-127 | the scan finds the last matching configuration's funds; the answer is `FundsCheck` on the cached product and the accounts |
| `Strategies.OpenDecision` | src/main/java/allanlewis/positions/PositionStrategies.kt:33-65 | always-true answers true, always-false false, day-range true iff funds suffice and the decision is to open |
| `Strategies.OpenPosition` | src/main/java/allanlewis/positions/PositionStrategies.kt:25-27 | the strategy's answer is `OpenDecision` |
| `Strategies.InsufficientFundsNeverOpen` | src/main/java/allanlewis/positions/PositionStrategies.kt:56-64 | insufficient funds answer false whatever the band decision |
| `Manager.CountFor` | src/main/java/allanlewis/positions/PositionManager.kt:42 | zero iff no order is for the instrument, all iff every order is |
| `Manager.ConfigFor` | src/main/java/allanlewis/Application.kt:97-105 | the first configuration with the instrument's id, none iff there is none |
| `Manager.Managed` | src/main/java/allanlewis/positions/PositionManager.kt:26-33 | each managed instrument has its configuration's cached product |
| `Manager.ManagedExactly` | src/main/java/allanlewis/positions/PositionManager.kt:26-33 | a configuration is managed iff its product is cached |
| `Manager.ManagedInOrder` | src/main/java/allanlewis/positions/PositionManager.kt:26-33 | the instruments managed for consecutive configuration lists are those of each, in order |
| `Manager.ManagedSingle` | src/main/java/allanlewis/positions/PositionManager.kt:26-33 | one configuration is managed with its cached product, or not at all |
| `Manager.PositionManager.Init` | src/main/java/allanlewis/positions/PositionManager.kt:26-33 | the loop manages exactly `Managed` |
| `Manager.PositionManager.NewPositionFor` | src/main/java/allanlewis/positions/PositionManager.kt:63-72 | no configuration leaves the map unchanged; otherwise a fresh position with the first configuration is run and stored under its id, and the other entries are unchanged |
| `Manager.PositionManager.NewPosition` | src/main/java/allanlewis/positions/PositionManager.kt:57-61 | an unknown instrument gives nothing and changes nothing; otherwise the instrument's first configuration and cached product go to a fresh position stored under the new id, its log is the records of its lifecycle, and the other entries are unchanged |
| `Manager.CountOrders` | src/main/java/allanlewis/positions/PositionManager.kt:42 | the loop counts exactly the orders for the instrument (`CountFor`) |
| `Manager.PositionManager.Manage` | src/main/java/allanlewis/positions/PositionManager.kt:35-55 | a failed listing does nothing; at or over the cap nothing opens; below it an unknown strategy name does nothing; otherwise a position opens iff the strategy answers true; a position opened gets the first configuration and the product, its log is the records of its lifecycle, and the other positions are unchanged |
| `Manager.PositionManager.GetPosition` | src/main/java/allanlewis/positions/PositionManager.kt:74-76 | a null id is an error; the stored position iff the id is stored |
| `CoinbaseStream.TickOf` | src/main/java/allanlewis/coinbase/CoinbaseWebSocketApiImpl.kt:113-121 | every tick field is copied from the message |
| `CoinbaseStream.OtherMessagesKeepTick` | src/main/java/allanlewis/coinbase/CoinbaseWebSocketApiImpl.kt:101-111 | messages without a ticker for an instrument leave its entry as it was |
| `CoinbaseStream.LastTickerWins` | src/main/java/allanlewis/coinbase/CoinbaseWebSocketApiImpl.kt:101-121 | an instrument's entry is the tick of its last ticker message |
| `CoinbaseStream.SubscribedIds` | src/main/java/allanlewis/coinbase/CoinbaseWebSocketApiImpl.kt:65-71 | at most one id per configuration |
| `CoinbaseStream.SubscribedInOrder` | src/main/java/allanlewis/coinbase/CoinbaseWebSocketApiImpl.kt:65-71 | the ids of consecutive configuration lists are the ids of each, in order |
| `CoinbaseStream.SubscribedSingle` | src/main/java/allanlewis/coinbase/CoinbaseWebSocketApiImpl.kt:65-71 | one configuration gives its cached product's id, or nothing; with `SubscribedInOrder`, repeats are subscribed for as often as listed |
| `CoinbaseStream.SubscribedExactly` | src/main/java/allanlewis/coinbase/CoinbaseWebSocketApiImpl.kt:65-71 | an id is subscribed iff it is the cached product of some configuration |
| `CoinbaseStream.SubscriptionPayload` | src/main/java/allanlewis/coinbase/CoinbaseWebSocketApiImpl.kt:87-99 | subscribe to heartbeat, user and ticker for the ids; the signature signs a GET of /users/self/verify, empty body, at the message's timestamp |
| `CoinbaseStream.CoinbaseWebSocketHandler.UpdatePrice` | src/main/java/allanlewis/coinbase/CoinbaseWebSocketApiImpl.kt:113-121 | the message's instrument gets the message's tick, and nothing else changes |
| `CoinbaseStream.CoinbaseWebSocketHandler.HandleResponse` | src/main/java/allanlewis/coinbase/CoinbaseWebSocketApiImpl.kt:101-111 | only a ticker message changes the map; the message is passed on |
| `CoinbaseStream.CoinbaseWebSocketHandler.CollectIds` | src/main/java/allanlewis/coinbase/CoinbaseWebSocketApiImpl.kt:65-71 | the collected ids are `SubscribedIds` |
| `CoinbaseStream.CoinbaseWebSocketHandler.Handle` | src/main/java/allanlewis/coinbase/CoinbaseWebSocketApiImpl.kt:64-85 | sends the subscription for the collected ids, passes on every message, and leaves the map as `AfterMessages` |
| `WebSockets.StaleExactly` | src/main/java/allanlewis/spring/WebSockets.kt:99 | stale iff at least threshold + 1 whole seconds passed, since durations count whole seconds |
| `WebSockets.CheckDecision` | src/main/java/allanlewis/spring/WebSockets.kt:93-106 | no session: nothing; closed session: signal server error; unset time: the check throws; stale: close with bad data; otherwise healthy |
| `WebSockets.FreshAfterMessage` | src/main/java/allanlewis/spring/WebSockets.kt:75-79 | a message keeps an open session healthy until threshold + 1 seconds later |
| `WebSockets.Session.Close` | src/main/java/allanlewis/spring/WebSockets.kt:102 | one close request with the status is recorded |
| `WebSockets.DefaultWebSocketHandler.Handle` | src/main/java/allanlewis/spring/WebSockets.kt:68-69 | the session becomes the checked one |
| `WebSockets.DefaultWebSocketHandler.Receive` | src/main/java/allanlewis/spring/WebSockets.kt:75-76 | the last-message time becomes the clock reading |
| `WebSockets.DefaultWebSocketHandler.SubscribeClosed` | src/main/java/allanlewis/spring/WebSockets.kt:62-64 | subscribing to the closed stream sets its sink |
| `WebSockets.DefaultWebSocketHandler.SessionClosed` | src/main/java/allanlewis/spring/WebSockets.kt:80-84 | the close status is forwarded exactly when the sink is set |
| `WebSockets.DefaultWebSocketHandler.Check` | src/main/java/allanlewis/spring/WebSockets.kt:91-110 | the action is `CheckDecision`; a live checker signals, closes or dies accordingly, and changes nothing else; a dead one changes nothing |
| `WebSockets.DefaultWebSocketClient.Init` | src/main/java/allanlewis/spring/WebSockets.kt:25-41 | subscribes to the closed stream before the one connect |
| `WebSockets.DefaultWebSocketClient.React` | src/main/java/allanlewis/spring/WebSockets.kt:32-36 | one more connect per close signal: connects = 1 + signals |

## Left out

- HTTP, JSON and request signing: the exchange's replies, the product lookup and the signer are parameters. Parsing decimals and records from JSON, and the DTO mapping, are not modelled.
- Reactor scheduling: the 60-second manager interval, the 10-second checker interval, the 500 ms tick replay, the backoff delays, back-pressure and the shared fan-out of the tick stream are not modelled. One call of `Manage`, `Check` or `Decide` stands for one tick. Feeding `Decide` from the tick stream is left to the caller.
- Concurrency: the concurrent hash maps and the interleaving of callbacks are not modelled. The callbacks of one position run in order, and one `now` stands for every clock reading of the lifecycle.
- Timestamp formatting: the ISO date-time strings of the state log are integer clock readings.
- Logging, and the description string stored beside each day-range decision, are not modelled.
- Negative decimal scales are not modelled: the scale is a natural number.
- The socket transport: `connect` is counted and not executed. The send/receive plumbing of the generic handler, through `WebSocketApiImpl`, is not modelled.
- `Products.ProductRepository.Products`: a set, so the hash map's iteration order and duplicate products are not captured.
- `Strategies.DayRangeStrategy.CheckFunds`: the account listing is a whole list, so an error after the first matching account is not told apart from success.
- `Manager.PositionManager.Manage`: the order listing is a whole list or an error, and the accounts the strategy would list are a parameter.
- `WebSockets.DefaultWebSocketHandler.Handle`: only records the session. Every connect, the first and each reconnect, runs this `handle`, which sends the cached products' ids through `WebSocketApiImpl` (src/main/java/allanlewis/spring/WebSockets.kt:68-74). So each reconnect resubscribes. That sending, and the messages it produces, are not modelled.
- `WebSockets.DefaultWebSocketHandler.Check`: the action is still returned when the checker is dead. It is then a value, not an effect.
- `Positions.Lifecycle`: the lifecycle is driven synchronously by the oracle. A sell whose execution never finishes is not modelled.
- `PositionExecution.Execute`: each retry polls afresh. That is how a `RestApi` whose `getOrder` queries when subscribed behaves under `retryWhen`. The Coinbase client builds its reply while building the Mono (src/main/java/allanlewis/coinbase/CoinbaseRestApiImpl.kt:30-37), so every retry replays the first snapshot. That client is the special case of equal answers (`PositionExecution.ReplayedSnapshot`).
- `PositionExecution.Execute`: an `ApiException` thrown synchronously by the client is not modelled. Thrown by `getOrder` inside the `flatMap`, it would fail the execution at once, without retry. Thrown by `postOrder`, it would escape `Position.init`: the position would stay in BuyOrderPending and would not be stored (src/main/java/allanlewis/positions/PositionManager.kt:68-69). An `Error` reply stands for a failed Mono: a failed poll is retried, and a failed post fails the execution.
- `Products.Load`: the lookup is a function of the id, so a configuration listed twice is answered the same both times. The source calls `getProduct` once per configuration, and two calls could differ.
