# Order execution engine: the order-processing pipeline in Dafny

This project models the core of the order-execution engine: a swap order is
created as `pending`, a queued job for it is taken up by a worker, and the
worker's `processOrder` moves the order through `routing`, `building`,
`submitted` and `confirmed`. The best of two venue quotes is chosen, and a
simulated execution is run on that venue. On any error the worker records
`failed` with the error's message, drops the order's cache entry and rethrows,
so that the queue retries the job, up to `MAX_RETRIES` attempts.

Modules, one per source file:

- `Types` holds the records of `types/index.ts` (orders, events, quotes).
- `Config` holds the constants of `config/index.ts`.
- `MockRouter` holds the quote fetch, the base price table, quote selection
  and execution.
- `Postgres` is the `orders` table as a map, with its upsert.
- `Redis` is the active-order cache with expiry, and the publish/subscribe bus
  with its one shared subscriber connection.
- `Effects` holds the world the service acts on and the I/O calls against it.
- `OrderService` holds create, update, publish, the status messages and the
  cache-first read.
- `OrderQueue` holds `addOrder`, `processOrder` and the attempt loop.

How the outside world is represented:

- **The world.** It holds the store map, the cache map, the bus, an
  append-only log of the I/O calls that completed, the deliveries made to
  subscriber callbacks, and a call counter.
- **Faults.** The world also carries a fault plan that maps a call number to
  the message that call throws. It stands for a database that cannot be
  reached or rejects the statement, or an error reply from Redis. An
  unreachable Redis makes a call wait rather than throw
  (`maxRetriesPerRequest: null`), and a call that never returns is not
  modelled. A call that throws changes nothing.
- **Time and randomness.** The clock (`new Date()`), the uuid and every
  `Math.random()` draw are parameters. Each attempt receives one `now`, the
  two quote draws, the hash draw's printed text and the slippage draw.
- **Number printing.** The way JavaScript prints a number inside the slippage
  error text is a parameter, `show`.

`processOrder` is modelled as a list of steps run by an interpreter, `Run`,
that stops at the first step that throws:

- the try block is `Update(routing)`, `Update(building)`,
  `Update(submitted)`, `Update(confirmed)`, then `DropCache`;
- the catch block is `Update(failed)`, then `DropCache`.

Quoting, the slippage check and execution touch no store, cache or channel,
and their results depend only on the attempt's draws. The model therefore
computes them before the steps are built. The source computes them between
the I/O calls, which makes no observable difference here.

Behaviour of the code worth noting, which the model follows:

- **A failed order can still carry its hash.** The code does not stop an order
  from holding both a transaction hash and an error. A fault after the
  confirmed write (the cache delete throwing) leads to a `failed` record that
  keeps its hash, price and venue (`OrderQueue.DeleteFailureKeepsHash`).
- **A retried success can keep an earlier error.** When an attempt completes
  after an earlier attempt failed, the confirmed record keeps that earlier
  error, because no update ever clears `error` (`OrderQueue.TryChain`).
- **The hash length varies.** The hash is `0x` followed by at most 64
  characters of the printed random draw, so a draw printed with few digits
  gives a short hash (`MockRouter.ShortHashExample`).
- **Ties go to meteora.** On a tie the code picks meteora, the second venue
  asked (`MockRouter.TieGoesToMeteora`).
- **The create message is its own text.** `createOrder` publishes "Order
  created and queued for processing", not the `pending` entry of the status
  message table.
- **The confirmed message names no venue.** The confirmed update passes only
  the hash and the price, so its message renders the venue as `undefined`
  (`OrderQueue.ConfirmedMessageHasNoVenue`).
- **The catch block covers every step.** It catches errors from every step
  of the try block, the routing update and the final cache delete included.
- **A failing catch skips the cache delete.** If the `failed` update throws,
  that error escapes instead of the original one, and the cache delete is
  skipped. This holds at whichever of its calls the update throws
  (`OrderQueue.CatchUpdateThrowsEscapes`); when the first of them, the store
  read, throws, nothing at all changes (`OrderQueue.CatchFailureEscapes`).
- **The service allows any status change.** The order service accepts any
  status after any other, `confirmed` and `failed` included. It enforces no
  transition graph, and neither does the model.
- **An unknown order gives `null`, not an error.** `getOrder` on an unknown id
  returns `null`; only `updateOrderStatus` fails with "not found".

## Model

| member | source | states |
|---|---|---|
| MockRouter.BasePriceForPair | dex/mock-router.ts:59-70 | every pair, known or not, gets a positive base price; the lookup never fails |
| MockRouter.BasePriceByTokens | dex/mock-router.ts:59-70 | the table per token pair: 100 for SOL-USDC and SOL-USDT, 2500 for ETH-USDC, 45000 for BTC-USDC, 1 for every other pair, whatever characters the tokens contain |
| MockRouter.QuoteVariance | dex/mock-router.ts:51 | a draw in [0, 1) gives a variance in [-PRICE_VARIANCE, PRICE_VARIANCE) |
| MockRouter.FetchQuote | dex/mock-router.ts:36-57 | the quote carries the provider it was fetched for; for a non-negative amount its price is within ±5% of base times amount, and positive when the amount is |
| MockRouter.GetBestQuote | dex/mock-router.ts:12-31 | the chosen quote is one of the two fetched, raydium is chosen exactly when its price is strictly higher, and the chosen price is the larger of the two |
| MockRouter.TieGoesToMeteora | dex/mock-router.ts:26 | on equal draws (equal prices) meteora is chosen |
| MockRouter.BestQuoteInBand | dex/mock-router.ts:16-26 | for a positive amount the chosen price is positive and within the ±5% band around base times amount |
| MockRouter.JsSubstring | dex/mock-router.ts:92 | `substring` clamps both ends to the length: the result is at most `end - start` long and is the exact slice when the text is long enough |
| MockRouter.SlipVariance | dex/mock-router.ts:95 | a draw in [0, 1) gives an execution variance in [-0.002, 0.002) |
| MockRouter.ExecuteOrder | dex/mock-router.ts:79-101 | the hash starts with `0x` and has 2 to 66 characters; the executed price lies within ±0.2% of the expected price |
| MockRouter.HashKeepsDrawDigits | dex/mock-router.ts:92 | for a draw printed as `0.` and digits, the hash is `0x` followed by the first (at most 64) of those digits |
| MockRouter.ShortHashExample | dex/mock-router.ts:92 | a draw printed as `0.8` gives the hash `0x8`: 64 digits are not guaranteed |
| Postgres.SaveOrder | db/postgres.ts:54-84 | a new id stores the whole order; an existing id keeps its six insert-only columns and takes all six lifecycle columns from the saved order (an absent optional clears the stored one); no other row changes; at most one row per id |
| Postgres.GetOrder | db/postgres.ts:86-109 | the stored row for a known id, none for an unknown one |
| Postgres.SaveIdempotent | db/postgres.ts:54-84 | saving the same order twice leaves the table as saving it once |
| Postgres.LastWriteWins | db/postgres.ts:61-68 | of two saves for one id the second decides every lifecycle column whatever status the first wrote, and the insert-only columns stay those of the first insert |
| Postgres.SaveThenGet | db/postgres.ts:54-109 | reading back a save whose insert-only columns agree with the row (or that inserts) returns exactly the saved order |
| Redis.ActiveKeyInjective | db/redis.ts:55 | distinct order ids have distinct `active:` keys |
| Redis.ChannelInjective | db/redis.ts:34-40 | distinct order ids have distinct `order:` channels |
| Redis.SetActiveOrder | db/redis.ts:54-56 | the order's key holds the snapshot with an expiry one hour ahead; every other key is unchanged |
| Redis.GetActiveOrder | db/redis.ts:58-61 | the snapshot exactly when the key exists and has not expired, otherwise none |
| Redis.DeleteActiveOrder | db/redis.ts:63-65 | removes exactly the order's key |
| Redis.GetAfterSet | db/redis.ts:54-61 | a read within the hour after a set returns that snapshot |
| Redis.ExpiresAfterTtl | db/redis.ts:55 | a read once 3600 seconds have passed since the last set finds nothing |
| Redis.SetOverwrites | db/redis.ts:55 | a second set replaces the first snapshot and its expiry |
| Redis.GetAfterDelete | db/redis.ts:58-65 | a read after a delete finds nothing |
| Redis.CacheIsolation | db/redis.ts:54-65 | a set or delete for one order does not change what a read of another order returns |
| Redis.SubscribeToOrder | db/redis.ts:39-48 | subscribes the order's channel and attaches one more listener for it |
| Redis.UnsubscribeFromOrder | db/redis.ts:50-52 | unsubscribes the channel and keeps every listener |
| Redis.Receivers | db/redis.ts:43-47 | a callback is reached exactly when one of its listeners is on the message's channel |
| Redis.Recipients | db/redis.ts:32-47 | a published message reaches a callback exactly when the order's channel is subscribed and the callback listens on it |
| Redis.SubscriberReceives | db/redis.ts:39-47 | a fresh subscriber receives the order's next message |
| Redis.UnsubscribeSilences | db/redis.ts:50-52 | after unsubscribing nothing published for that order is delivered |
| Redis.ResubscribeRevives | db/redis.ts:39-52 | subscribing again revives the earlier callback alongside the new one |
| Redis.BusIsolation | db/redis.ts:39-52 | subscribing or unsubscribing one order leaves delivery for every other order unchanged |
| Effects.ReadStore | db/postgres.ts:86-109 | a completed store read returns the table's answer and changes neither store nor cache |
| Effects.WriteStore | db/postgres.ts:54-84 | a completed store write applies the upsert; a thrown one changes nothing |
| Effects.ReadCache | db/redis.ts:58-61 | a completed cache read returns the cache's answer and changes nothing |
| Effects.WriteCache | db/redis.ts:54-56 | a completed cache write applies the set; a thrown one changes nothing |
| Effects.DeleteCache | db/redis.ts:63-65 | a completed delete removes the key; a thrown one changes nothing |
| Effects.Deliveries | db/redis.ts:43-47 | a publish hands the message to every recipient, once per matching listener, in listener order, and to no one else |
| Effects.PublishUpdate | db/redis.ts:32-37 | a completed publish logs the message and delivers it to the channel's callbacks; a thrown one delivers nothing |
| OrderService.NewOrder | services/order-service.ts:12-18 | the new order is pending, its id is `ord_` plus the uuid, the request fields are copied, no optional field is set, and both timestamps are the clock |
| OrderService.Merge | services/order-service.ts:40-45 | the insert-only fields are kept; the status is the argument unless the update carries one; each optional field is the update's when present and the stored one otherwise; `updatedAt` is the clock |
| OrderService.StatusMessages | services/order-service.ts:73-84 | the fixed text for each in-flight status; confirmed renders the update's price and venue; failed is "Order failed: " plus the error, or "Unknown error" when the error is absent or empty |
| OrderService.EventFor | services/order-service.ts:56-68 | the event takes id, status, hash, price, venue and error from the merged order, so fields set earlier reappear |
| OrderService.PublishStatusUpdate | services/order-service.ts:56-71 | a completed publish logs exactly the event built from the order |
| OrderService.CreateOrder | services/order-service.ts:11-28 | a completed create returns the new pending order |
| OrderService.UpdateOrderStatus | services/order-service.ts:30-54 | an update of an unknown id throws not-found (when its read completes) and changes no store, cache or delivery, and no write is logged; a completed update implies the id was stored |
| OrderService.WriteThrough | services/order-service.ts:47-51 | the write-through half only extends the world |
| OrderService.GetOrder | services/order-service.ts:86-93 | a read never writes: store, cache and deliveries unchanged, and the log grows by at most the cache read and the store read |
| OrderService.CreateOrderCommits | services/order-service.ts:20-25 | with three completing calls: store write, then cache write, then exactly one pending event for the order |
| OrderService.UpdateUnknownOrder | services/order-service.ts:35-38 | an unknown id fails with "Order <id> not found" after the store read, and nothing is written |
| OrderService.UpdateCommits | services/order-service.ts:47-51 | with four completing calls: store and cache hold the same merged order, written store first, cache second, event third |
| OrderService.ThrownUpdateEffects | services/order-service.ts:35-51 | an update of a stored order that throws makes a strict prefix of read, store write, cache write, publish, and never deletes a cache entry |
| OrderService.UpdateEffectsArePrefix | services/order-service.ts:35-51 | whatever throws, the update's effects are a prefix of read, store write, cache write, publish; all four exactly when it completes |
| OrderService.UpdateProgress | services/order-service.ts:35-51 | how far an update got, and that the store holds the merged order from the store write on |
| OrderService.WriteThroughProgress | services/order-service.ts:47-51 | how far the write-through half got, and that the store holds the order from its first write on |
| OrderService.UpdateWrites | services/order-service.ts:35-51 | an update of a stored order writes nothing and leaves the store alone, or writes exactly the merged order, which the store then holds |
| OrderService.ReadYourWrites | services/order-service.ts:86-89 | right after a completed update, `getOrder` within the hour returns the merged order with the status just written |
| OrderService.GetOrderCacheHit | services/order-service.ts:88-89 | a live cache entry is returned without a store read |
| OrderService.GetOrderCacheMiss | services/order-service.ts:91-92 | on a miss the store's answer is returned (none for an unknown id) and the cache is not repopulated |
| OrderQueue.AddOrder | queue/order-queue.ts:57-78 | appends one `execute` job with the order, `MAX_RETRIES` attempts and exponential backoff from `BACKOFF_DELAY`, keeping the queue before it |
| OrderQueue.GuardTripsIff | queue/order-queue.ts:91-94 | the slippage check fires exactly when price and slippage have strictly opposite signs |
| OrderQueue.GuardNeverTrips | queue/order-queue.ts:91-94 | for price ≥ 0 and slippage ≥ 0 the check never fires |
| OrderQueue.Run | queue/order-queue.ts:83-119 | running the try block's awaited steps only extends the world |
| OrderQueue.TryActions | queue/order-queue.ts:86-117 | every attempt's first step is the routing update |
| OrderQueue.ProcessOrder | queue/order-queue.ts:80-131 | an attempt only extends the world: log and deliveries grow, bus and fault plan stay |
| OrderQueue.TryCatch | queue/order-queue.ts:83-131 | a try block followed by its catch block only extends the world, whatever the steps |
| OrderQueue.CatchUpdateThrowsEscapes | queue/order-queue.ts:120-129 | when the `failed` update of the catch block throws at any of its calls, that error escapes instead of the original one with the world the update left; for a stored order the catch made a strict prefix of the update's four effects and no cache delete |
| OrderQueue.CatchFailureEscapes | queue/order-queue.ts:120-129 | when the store read of the catch block's `failed` update throws, that error escapes instead of the original one, and the store, the cache and the log are left as the try block left them |
| OrderQueue.CatchRethrows | queue/order-queue.ts:120-129 | a try block that throws, followed by a catch whose calls complete, rethrows the same error and leaves the order failed with its message, venue, price and hash kept |
| OrderQueue.RunCommits | queue/order-queue.ts:83-119 | steps without a throw whose calls all complete: the run completes, makes exactly their call count and writes exactly the chain of merged records, the last of which the store holds |
| OrderQueue.RunProgress | queue/order-queue.ts:83-119 | whatever throws, a run writes a prefix of the chain of merged records and the store holds the last one written; a completed run writes the whole chain |
| OrderQueue.RunEndsUncached | queue/order-queue.ts:117 | a completed run ending with the cache delete leaves no cache entry for the order |
| OrderQueue.BestPriceNonNegative | queue/order-queue.ts:88 | for an accepted amount the chosen price is non-negative |
| OrderQueue.TryChain | queue/order-queue.ts:87-115 | past the check, the writes are routing, building with the chosen venue, submitted, and confirmed with the execution's hash and price; an earlier error and the insert-only fields are carried over |
| OrderQueue.AttemptCompletes | queue/order-queue.ts:86-117 | a fault-free attempt on an accepted order completes after 17 calls, writes the four stages in order, leaves the confirmed record stored and no cache entry |
| OrderQueue.CompletedStatuses | queue/order-queue.ts:87-112 | the statuses a fault-free attempt writes are exactly routing, building, submitted, confirmed, after the earlier ones |
| OrderQueue.CatchCommits | queue/order-queue.ts:120-128 | the catch block writes failed with the error's message, keeps venue, price and hash, and drops the cache entry |
| OrderQueue.AttemptShape | queue/order-queue.ts:80-131 | whatever throws, an attempt writes a prefix of the try block's chain and then at most the failed record, which the store then holds; a completed attempt wrote the whole chain and no failed record |
| OrderQueue.AttemptStartsAtRouting | queue/order-queue.ts:87 | an attempt's first store write is the routing record, unless it writes only the failed record |
| OrderQueue.UnknownOrderAttempt | queue/order-queue.ts:87-129 | for an unknown order both updates fail with not-found, the catch block's error escapes, and nothing is written |
| OrderQueue.DeleteFailureKeepsHash | queue/order-queue.ts:112-127 | when the cache delete after confirmation throws, the attempt throws that error and the order ends failed with that message, still carrying hash, price and venue |
| OrderQueue.GuardFiresFails | queue/order-queue.ts:91-129 | when the check fires, routing is written, then failed with "Price … exceeds slippage tolerance", which is the error thrown; no venue, hash or price is written |
| OrderQueue.ConfirmedMessageHasNoVenue | queue/order-queue.ts:112-115 | the confirmed event's message carries the executed price and no venue |
| OrderQueue.CompletedThenRead | queue/order-queue.ts:117 | after a completed attempt `getOrder` misses the cache and returns the confirmed record from the store |
| OrderQueue.Retry | queue/order-queue.ts:62 | a job runs between one attempt and its allowance, and fails only after using every attempt |
| OrderQueue.RetryAttempts | queue/order-queue.ts:125-129 | every attempt but the last threw; the job completes exactly when the last attempt did, otherwise it fails with that attempt's error |
| OrderQueue.EveryAttemptStartsAtRouting | queue/order-queue.ts:87 | each attempt of a job on a stored order starts over at routing |
| OrderQueue.FirstAttemptCompletes | queue/order-queue.ts:83-119 | an accepted order whose first attempt meets no fault completes on that attempt |
| OrderQueue.RunJob | queue/order-queue.ts:25-29 | the worker's run of a job equals the retry rule and uses at most the job's allowance of attempts |
| OrderQueue.RunAttempts | queue/order-queue.ts:62 | the attempt loop computes exactly the retry rule |
| OrderQueue.AddedJobAttempts | queue/order-queue.ts:62 | a job `addOrder` enqueued runs at most 3 attempts |

## Left out

- BullMQ's queue and worker internals are not modelled: connections,
  concurrency 10, the 100-per-minute limiter, backoff delays and stall
  detection. Backoff is kept only as the job option. The model runs one job
  at a time, so overlapping attempts on one order are not modelled either.
- Job retention (`removeOnComplete`, `removeOnFail`) is not modelled: it is
  bookkeeping with no effect on orders.
- Prices and amounts are exact reals. Floating-point rounding, `toFixed(2)`
  and the store's `DECIMAL(20, 8)`/`DECIMAL(5, 2)` rounding are not modelled,
  and neither are the `VARCHAR` length limits. The confirmed message is kept
  as the price and venue it is printed from.
- The range of those columns is not modelled either. Postgres rejects an
  `amount` or `executed_price` of 10^12 or more and a `slippage` of 1000 or
  more, and then `saveOrder` throws. The model counts such a rejection only
  as a fault in the fault plan, like an unreachable database.
- OrderQueue.AttemptCompletes: its "no call throws" premise also excludes
  values the store's columns reject. An amount of 10^12 or more already
  fails `createOrder`'s insert, so it never produces a job. An amount within
  range can still give an executed price of 10^12 or more, for example
  BTC-USDC with an amount of 3·10^7. For such an order the confirmed write
  throws on every attempt, the catch writes `failed`, and the job is
  dead-lettered. The lemma does not say this.
- OrderQueue.FirstAttemptCompletes: the same range caveat as
  `OrderQueue.AttemptCompletes`.
- JSON serialisation in the cache and on the channel is not modelled:
  snapshots and messages are kept as values.
- The simulated sleeps and the measured quote latency are left out; the
  latency is a parameter.
- `Math.random()`, the uuid, the clock and JavaScript's number printing are
  parameters. One `now` serves every clock read of a call. `createOrder`
  reads the clock three times: for `createdAt`, for `updatedAt` and for the
  event timestamp. Each update reads it twice: for `updatedAt` and for the
  event timestamp. All the updates of an attempt share the same `now`, so
  the model has no time passing inside a call or an attempt.
- An update's `Partial<Order>` is modelled through the five keys the callers
  pass: status, venue, price, hash and error. Overriding the id, the request
  fields or the timestamps through it is not modelled.
- `createOrder`'s request is the typed four-field request. Extra keys in the
  request object, which the spread would copy (an `orderId` among them,
  replacing the generated id), are not modelled.
- Logging, the HTTP routes, the WebSocket handler, start-up, pool and
  connection setup, schema creation and Redis connect/quit are not modelled.
  The request bounds of the HTTP route appear only as the lemmas'
  `amount >= 0` and `slippage >= 0` preconditions.
- A NULL `executed_price` read back as `undefined` needs no separate step:
  the model's store keeps an absent price as absent.
- Redis.Recipients: delivery order among several callbacks is stated only
  through `Receivers`, and callback bodies are not run.
