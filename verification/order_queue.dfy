/** The order queue and its worker (queue/order-queue.ts): `addOrder`
    enqueues an `execute` job holding the order; the worker runs
    `processOrder` on it, which drives the order through routing, building,
    submitted and confirmed, and on any error records `failed`, drops the
    cache entry and rethrows so that the queue retries the job. */
module OrderQueue {
  import opened Wrappers
  import opened Types
  import opened Effects
  import Config
  import Postgres
  import Redis
  import MockRouter
  import OrderService

  // ---------------------------------------------------------------------
  // Jobs

  datatype Backoff = Exponential(delayMs: nat)

  /** The options `addOrder` passes; the retention settings are not modelled. */
  datatype JobOptions = JobOptions(attempts: nat, backoff: Backoff)

  datatype Job = Job(name: string, data: Order, options: JobOptions)

  const JobName := "execute"

  /** `addOrder`: append one `execute` job for the order, allowed
      `MAX_RETRIES` attempts with exponential backoff from `BACKOFF_DELAY`. */
  function AddOrder(queue: seq<Job>, o: Order): (q: seq<Job>)
    ensures |q| == |queue| + 1 && q[..|queue|] == queue
    ensures q[|queue|].name == JobName && q[|queue|].data == o
    ensures q[|queue|].options.attempts == Config.MaxRetries
    ensures q[|queue|].options.backoff == Exponential(Config.BackoffDelayMs)
  {
    queue + [Job(JobName, o, JobOptions(Config.MaxRetries, Exponential(Config.BackoffDelayMs)))]
  }

  // ---------------------------------------------------------------------
  // One run of processOrder

  /** What one attempt takes from outside: the clock, and the random draws of
      the quote and of the execution. */
  datatype AttemptInput = AttemptInput(now: Time, quotes: MockRouter.QuoteDraws, exec: MockRouter.ExecDraws)

  /** The slippage check: the best price is below its own reduction by
      `slippage` percent. */
  predicate GuardTrips(price: real, slippage: real) {
    price < price * (1.0 - slippage / 100.0)
  }

  /** The check fires exactly when price and slippage have strictly opposite
      signs. */
  lemma GuardTripsIff(price: real, slippage: real)
    ensures GuardTrips(price, slippage) <==> (price < 0.0 && slippage > 0.0) || (price > 0.0 && slippage < 0.0)
  {
    assert price * (1.0 - slippage / 100.0) == price - price * slippage / 100.0;
    if price < 0.0 && slippage > 0.0 {
      assert price * slippage < 0.0;
    } else if price > 0.0 && slippage < 0.0 {
      assert price * slippage < 0.0;
    } else {
      assert price * slippage >= 0.0;
    }
  }

  /** So for a non-negative price and a non-negative tolerance (every price
      the router quotes for an accepted request) the check never fires. */
  lemma GuardNeverTrips(price: real, slippage: real)
    requires price >= 0.0 && slippage >= 0.0
    ensures !GuardTrips(price, slippage)
  {
    GuardTripsIff(price, slippage);
  }

  /** `{ selectedDex: bestQuote.provider }`. */
  function BuildPatch(provider: DexProvider): OrderService.Patch {
    OrderService.NoPatch.(selectedDex := Some(provider))
  }

  /** `{ txHash, executedPrice }`. */
  function ConfirmPatch(x: MockRouter.Execution): OrderService.Patch {
    OrderService.NoPatch.(executedPrice := Some(x.executedPrice), txHash := Some(x.txHash))
  }

  /** `{ error: error.message }`. */
  function FailPatch(e: Error): OrderService.Patch {
    OrderService.NoPatch.(error := Some(e.Message()))
  }

  // ---------------------------------------------------------------------
  // The steps of an attempt

  /** One step of `processOrder`: a status update, the cache delete, or a
      throw. */
  datatype Action =
    | Update(status: OrderStatus, patch: OrderService.Patch)
    | DropCache
    | Raise(error: Error)

  /** Perform one step against the world. */
  function Perform(w: World, orderId: string, a: Action, now: Time): (r: Outcome<()>)
    ensures Extends(w, r.world)
  {
    match a
    case Update(status, p) => OrderService.UpdateOrderStatus(w, orderId, status, p, now)
    case DropCache => DeleteCache(w, orderId)
    case Raise(e) => Threw(e, w)
  }

  /** Perform the steps in order; the first step that throws ends the run
      with its error, as `await` does inside a `try` block. */
  function Run(w: World, orderId: string, actions: seq<Action>, now: Time): (r: Outcome<()>)
    ensures Extends(w, r.world)
    decreases |actions|
  {
    if |actions| == 0 then Done((), w)
    else
      match Perform(w, orderId, actions[0], now)
      case Threw(e, w1) => Threw(e, w1)
      case Done(_, w1) =>
        var r := Run(w1, orderId, actions[1..], now);
        ExtendsTrans(w, w1, r.world);
        r
  }

  /** The executed trade of an attempt that gets past the check. */
  function ExecutionFor(o: Order, best: DexQuote, input: AttemptInput): MockRouter.Execution {
    MockRouter.ExecuteOrder(best.provider, o.tokenIn, o.tokenOut, o.amount, best.price, input.exec)
  }

  /** The chosen quote of an attempt. */
  function BestFor(o: Order, input: AttemptInput): DexQuote {
    MockRouter.GetBestQuote(o.tokenIn, o.tokenOut, o.amount, input.quotes)
  }

  /** The `try` block: routing; then, unless the slippage check fires,
      building with the chosen venue, submitted, confirmed with the hash and
      the executed price, and the cache delete. Quoting and executing touch
      no store, so they are evaluated here from the attempt's draws. `show`
      prints a number the way the error message does. */
  function TryActions(o: Order, input: AttemptInput, show: real -> string): (steps: seq<Action>)
    ensures |steps| >= 2 && steps[0] == Update(Routing, OrderService.NoPatch)
  {
    var best := BestFor(o, input);
    [Update(Routing, OrderService.NoPatch)] +
    if GuardTrips(best.price, o.slippage) then [Raise(SlippageExceeded(show(best.price)))]
    else [Update(Building, BuildPatch(best.provider)),
          Update(Submitted, OrderService.NoPatch),
          Update(Confirmed, ConfirmPatch(ExecutionFor(o, best, input))),
          DropCache]
  }

  /** The `catch` block's steps: record `failed` with the error's message,
      then drop the cache entry. */
  function CatchActions(e: Error): seq<Action> {
    [Update(Failed, FailPatch(e)), DropCache]
  }

  /** `processOrder`: the `try` block of the attempt, then its `catch`. */
  function ProcessOrder(w: World, o: Order, input: AttemptInput, show: real -> string): (r: Outcome<()>)
    ensures Extends(w, r.world)
  {
    TryCatch(w, o.orderId, TryActions(o, input, show), input.now)
  }

  /** Run `steps`; on any error run the `catch` block, which rethrows the
      error unless one of its own steps throws first, in which case that
      error escapes and the remaining step is skipped. */
  function TryCatch(w: World, orderId: string, steps: seq<Action>, now: Time): (r: Outcome<()>)
    ensures Extends(w, r.world)
  {
    match Run(w, orderId, steps, now)
    case Done(v, w1) => Done(v, w1)
    case Threw(e, w1) =>
      var c := Run(w1, orderId, CatchActions(e), now);
      ExtendsTrans(w, w1, c.world);
      if c.Threw? then c else Threw(e, c.world)
  }

  // ---------------------------------------------------------------------
  // What a run of steps does

  /** I/O calls a step makes when none of them throws. */
  function CallsOf(a: Action): nat {
    match a
    case Update(_, _) => 4
    case DropCache => 1
    case Raise(_) => 0
  }

  function Cost(actions: seq<Action>): nat
    decreases |actions|
  {
    if |actions| == 0 then 0 else CallsOf(actions[0]) + Cost(actions[1..])
  }

  predicate NoRaise(actions: seq<Action>) {
    forall i :: 0 <= i < |actions| ==> !actions[i].Raise?
  }

  /** The records the updates among `actions` write, each merged into the
      one before, starting from `o`, up to the first throw. */
  function Chain(o: Order, actions: seq<Action>, now: Time): (ws: seq<Order>)
    ensures |ws| <= |actions|
    decreases |actions|
  {
    if |actions| == 0 then []
    else
      match actions[0]
      case Update(status, p) =>
        var m := OrderService.Merge(o, status, p, now);
        [m] + Chain(m, actions[1..], now)
      case DropCache => Chain(o, actions[1..], now)
      case Raise(_) => []
  }

  /** The record after the writes `ws`, starting from `o`. */
  function Last(o: Order, ws: seq<Order>): Order {
    if |ws| == 0 then o else ws[|ws| - 1]
  }

  /** `orderId` is stored, the store is keyed by id, and the next `n` calls
      do not throw. */
  ghost predicate Ready(w: World, orderId: string, n: nat) {
    orderId in w.store && Postgres.WellKeyed(w.store) && Clear(w, n)
  }

  /** `w'` is `w` after calls that stored the records `ws` for `orderId`. */
  ghost predicate Wrote(w: World, w': World, orderId: string, ws: seq<Order>) {
    && orderId in w.store && orderId in w'.store && Postgres.WellKeyed(w'.store)
    && w'.store[orderId] == Last(w.store[orderId], ws)
    && Writes(w'.log) == Writes(w.log) + ws
  }

  /** Running `a + b` is running `a`, then, if it completed, `b`. */
  lemma {:induction false} RunAppend(w: World, orderId: string, a: seq<Action>, b: seq<Action>, now: Time)
    ensures Run(w, orderId, a + b, now) ==
      match Run(w, orderId, a, now)
      case Threw(e, w1) => Threw(e, w1)
      case Done(_, w1) => Run(w1, orderId, b, now)
    decreases |a|
  {
    if |a| == 0 {
      assert a + b == b;
    } else {
      assert (a + b)[0] == a[0];
      assert (a + b)[1..] == a[1..] + b;
      var p := Perform(w, orderId, a[0], now);
      if p.Done? {
        RunAppend(p.world, orderId, a[1..], b, now);
      }
    }
  }

  /** Writing `ws` and then `vs` is writing both. */
  lemma WroteTrans(w1: World, w2: World, w3: World, orderId: string, ws: seq<Order>, vs: seq<Order>)
    requires Wrote(w1, w2, orderId, ws) && Wrote(w2, w3, orderId, vs)
    ensures Wrote(w1, w3, orderId, ws + vs)
  {
    if |vs| == 0 {
      assert ws + vs == ws;
    } else {
      assert (ws + vs)[|ws + vs| - 1] == vs[|vs| - 1];
    }
  }

  /** One step that completes, in store-write terms. */
  lemma StepCommits(w: World, orderId: string, a: Action, now: Time)
    requires Ready(w, orderId, CallsOf(a)) && !a.Raise?
    ensures
      var p := Perform(w, orderId, a, now);
      && p.Done? && p.world.calls == w.calls + CallsOf(a)
      && Wrote(w, p.world, orderId, if a.Update? then [OrderService.Merge(w.store[orderId], a.status, a.patch, now)] else [])
  {
    var o := w.store[orderId];
    if a.Update? {
      var m := OrderService.Merge(o, a.status, a.patch, now);
      OrderService.UpdateCommits(w, orderId, a.status, a.patch, now);
      OrderService.CommittedWrites(w.log, orderId, m,
        OrderService.EventFor(m, OrderService.StatusMessageFor(a.status, a.patch), now));
    } else {
      WritesSkip(w.log, CacheDelete(orderId));
      assert Writes(w.log) + [] == Writes(w.log);
    }
  }

  /** Steps without a throw whose calls all complete: the run completes,
      makes exactly `Cost` calls, and writes exactly the chain of merged
      records, the last of which the store then holds. */
  lemma {:induction false} RunCommits(w: World, orderId: string, actions: seq<Action>, now: Time)
    requires Ready(w, orderId, Cost(actions)) && NoRaise(actions)
    ensures
      var r := Run(w, orderId, actions, now);
      && r.Done? && r.world.calls == w.calls + Cost(actions)
      && Wrote(w, r.world, orderId, Chain(w.store[orderId], actions, now))
    decreases |actions|
  {
    if |actions| == 0 {
      assert Writes(w.log) + [] == Writes(w.log);
    } else {
      var a := actions[0];
      var rest := actions[1..];
      assert NoRaise(rest) by {
        forall i | 0 <= i < |rest| ensures !rest[i].Raise? {
          assert rest[i] == actions[i + 1];
        }
      }
      assert !a.Raise?;
      StepCommits(w, orderId, a, now);
      var p := Perform(w, orderId, a, now);
      RunCommits(p.world, orderId, rest, now);
      var o := w.store[orderId];
      var head := if a.Update? then [OrderService.Merge(o, a.status, a.patch, now)] else [];
      var tail := Chain(p.world.store[orderId], rest, now);
      WroteTrans(w, p.world, Run(p.world, orderId, rest, now).world, orderId, head, tail);
      assert Chain(o, actions, now) == head + tail;
    }
  }

  /** One step, whatever throws, in store-write terms: no write, or its own
      write; always its own when it completes. A throw step always throws. */
  lemma StepProgress(w: World, orderId: string, a: Action, now: Time)
    requires orderId in w.store && Postgres.WellKeyed(w.store)
    ensures
      var p := Perform(w, orderId, a, now);
      var own := if a.Update? then [OrderService.Merge(w.store[orderId], a.status, a.patch, now)] else [];
      && (Wrote(w, p.world, orderId, []) || Wrote(w, p.world, orderId, own))
      && (p.Done? ==> Wrote(w, p.world, orderId, own))
      && (a.Raise? ==> p.Threw?)
  {
    assert Writes(w.log) + [] == Writes(w.log);
    if a.Update? {
      OrderService.UpdateWrites(w, orderId, a.status, a.patch, now);
    } else if a.DropCache? {
      WritesSkip(w.log, CacheDelete(orderId));
    }
  }

  /** Whatever throws, a run writes a prefix of the chain of merged records,
      and the store holds the last record written; a run that completes
      writes the whole chain. */
  lemma {:induction false} RunProgress(w: World, orderId: string, actions: seq<Action>, now: Time) returns (k: nat)
    requires orderId in w.store && Postgres.WellKeyed(w.store)
    ensures
      var r := Run(w, orderId, actions, now);
      var chain := Chain(w.store[orderId], actions, now);
      && k <= |chain|
      && Wrote(w, r.world, orderId, chain[..k])
      && (r.Done? ==> k == |chain|)
    decreases |actions|
  {
    if |actions| == 0 {
      assert Writes(w.log) + [] == Writes(w.log);
      return 0;
    }
    var p := Perform(w, orderId, actions[0], now);
    if p.Threw? {
      k := StopProgress(w, orderId, actions, now);
      return;
    }
    var a := actions[0];
    var own := if a.Update? then [OrderService.Merge(w.store[orderId], a.status, a.patch, now)] else [];
    StepProgress(w, orderId, a, now);
    var rest := actions[1..];
    var tail := Chain(p.world.store[orderId], rest, now);
    var j := RunProgress(p.world, orderId, rest, now);
    WroteTrans(w, p.world, Run(p.world, orderId, rest, now).world, orderId, own, tail[..j]);
    assert Chain(w.store[orderId], actions, now) == own + tail;
    PrefixOfConcat(own, tail, j);
    k := |own| + j;
  }

  /** A run whose first step throws: nothing more, or that step's write. */
  lemma StopProgress(w: World, orderId: string, actions: seq<Action>, now: Time) returns (k: nat)
    requires orderId in w.store && Postgres.WellKeyed(w.store)
    requires |actions| > 0 && Perform(w, orderId, actions[0], now).Threw?
    ensures
      var r := Run(w, orderId, actions, now);
      var chain := Chain(w.store[orderId], actions, now);
      && k <= |chain|
      && Wrote(w, r.world, orderId, chain[..k])
      && r.Threw?
  {
    var a := actions[0];
    var chain := Chain(w.store[orderId], actions, now);
    var own := if a.Update? then [OrderService.Merge(w.store[orderId], a.status, a.patch, now)] else [];
    StepProgress(w, orderId, a, now);
    var p := Perform(w, orderId, a, now);
    if a.Update? && !Wrote(w, p.world, orderId, []) {
      assert chain[..1] == own;
      return 1;
    }
    assert chain[..0] == [];
    return 0;
  }

  lemma PrefixOfConcat<T>(a: seq<T>, b: seq<T>, j: nat)
    requires j <= |b|
    ensures (a + b)[..|a| + j] == a + b[..j]
  {
  }

  /** A run without a throw that ends with the cache delete and completes
      leaves no cache entry for the order. */
  lemma RunEndsUncached(w: World, orderId: string, actions: seq<Action>, now: Time)
    requires Ready(w, orderId, Cost(actions)) && NoRaise(actions)
    requires |actions| > 0 && actions[|actions| - 1] == DropCache
    ensures Redis.ActiveKey(orderId) !in Run(w, orderId, actions, now).world.cache
  {
    var n := |actions| - 1;
    var init := actions[..n];
    assert actions == init + [DropCache];
    CostAppend(init, [DropCache]);
    assert Cost([DropCache]) == 1;
    assert NoRaise(init) by {
      forall i | 0 <= i < |init| ensures !init[i].Raise? {
        assert init[i] == actions[i];
      }
    }
    RunAppend(w, orderId, init, [DropCache], now);
    RunCommits(w, orderId, init, now);
    var r1 := Run(w, orderId, init, now);
    assert Clear(r1.world, 1);
    assert Run(r1.world, orderId, [DropCache], now) == DeleteCache(r1.world, orderId);
  }

  lemma {:induction false} CostAppend(a: seq<Action>, b: seq<Action>)
    ensures Cost(a + b) == Cost(a) + Cost(b)
    decreases |a|
  {
    if |a| == 0 {
      assert a + b == b;
    } else {
      assert (a + b)[1..] == a[1..] + b;
      CostAppend(a[1..], b);
    }
  }

  // ---------------------------------------------------------------------
  // One attempt

  /** For an accepted request (non-negative amount) and draws in `[0, 1)`
      the chosen price is non-negative. */
  lemma BestPriceNonNegative(o: Order, input: AttemptInput)
    requires o.amount >= 0.0 && MockRouter.ValidQuoteDraws(input.quotes)
    ensures BestFor(o, input).price >= 0.0
  {
    var base := MockRouter.BasePriceForPair(o.tokenIn, o.tokenOut);
    var nominal := base * o.amount;
    assert nominal >= 0.0;
    assert nominal * (1.0 - Config.PriceVariance) >= 0.0;
  }

  /** Past the check, the try block's steps hold no throw, cost 17 calls,
      and write routing, building with the chosen venue, submitted, and
      confirmed with the execution's hash and price, each merged into the
      record before; the other fields, an earlier attempt's error included,
      are carried over from the stored record. */
  lemma TryChain(o0: Order, o: Order, input: AttemptInput, show: real -> string)
    requires !GuardTrips(BestFor(o, input).price, o.slippage)
    ensures
      var steps := TryActions(o, input, show);
      var chain := Chain(o0, steps, input.now);
      var best := BestFor(o, input);
      var x := ExecutionFor(o, best, input);
      && NoRaise(steps) && Cost(steps) == 17 && steps[|steps| - 1] == DropCache
      && |chain| == 4
      && chain[0].status == Routing && chain[1].status == Building
      && chain[2].status == Submitted && chain[3].status == Confirmed
      && chain[1].selectedDex == Some(best.provider)
      && chain[3].selectedDex == Some(best.provider)
      && chain[3].txHash == Some(x.txHash) && chain[3].executedPrice == Some(x.executedPrice)
      && chain[3].error == o0.error
      && Postgres.FixedPart(chain[3]) == Postgres.FixedPart(o0)
  {
    var best := BestFor(o, input);
    var x := ExecutionFor(o, best, input);
    assert TryActions(o, input, show) == [Update(Routing, OrderService.NoPatch)] + HappySteps(best.provider, x);
    HappyChain(o0, best.provider, x, input.now);
  }

  /** The try block's steps past the check. */
  function HappySteps(provider: DexProvider, x: MockRouter.Execution): seq<Action> {
    [Update(Building, BuildPatch(provider)),
     Update(Submitted, OrderService.NoPatch),
     Update(Confirmed, ConfirmPatch(x)),
     DropCache]
  }

  lemma HappyChain(o0: Order, provider: DexProvider, x: MockRouter.Execution, now: Time)
    ensures
      var steps := [Update(Routing, OrderService.NoPatch)] + HappySteps(provider, x);
      var mR := OrderService.Merge(o0, Routing, OrderService.NoPatch, now);
      var mB := OrderService.Merge(mR, Building, BuildPatch(provider), now);
      var mS := OrderService.Merge(mB, Submitted, OrderService.NoPatch, now);
      var mC := OrderService.Merge(mS, Confirmed, ConfirmPatch(x), now);
      && Chain(o0, steps, now) == [mR, mB, mS, mC]
      && Cost(steps) == 17 && NoRaise(steps) && steps[|steps| - 1] == DropCache
  {
    var mR := OrderService.Merge(o0, Routing, OrderService.NoPatch, now);
    var mB := OrderService.Merge(mR, Building, BuildPatch(provider), now);
    var mS := OrderService.Merge(mB, Submitted, OrderService.NoPatch, now);
    var mC := OrderService.Merge(mS, Confirmed, ConfirmPatch(x), now);
    var s4: seq<Action> := [DropCache];
    var s3 := [Update(Confirmed, ConfirmPatch(x))] + s4;
    var s2 := [Update(Submitted, OrderService.NoPatch)] + s3;
    var s1 := [Update(Building, BuildPatch(provider))] + s2;
    var s0 := [Update(Routing, OrderService.NoPatch)] + s1;
    assert s4[1..] == [] && s3[1..] == s4 && s2[1..] == s3 && s1[1..] == s2 && s0[1..] == s1;
    assert Chain(mC, s4, now) == [] && Cost(s4) == 1;
    assert Chain(mS, s3, now) == [mC] && Cost(s3) == 5;
    assert Chain(mB, s2, now) == [mS, mC] && Cost(s2) == 9;
    assert Chain(mR, s1, now) == [mB, mS, mC] && Cost(s1) == 13;
    assert Chain(o0, s0, now) == [mR, mB, mS, mC] && Cost(s0) == 17;
    assert s0 == [Update(Routing, OrderService.NoPatch)] + HappySteps(provider, x);
  }

  /** An attempt whose calls complete, on an accepted request with draws in
      `[0, 1)`: it completes after 17 calls, writes the four stages in order,
      the store ends with the confirmed record and the cache holds nothing
      for the order. */
  lemma AttemptCompletes(w: World, o: Order, input: AttemptInput, show: real -> string)
    requires Ready(w, o.orderId, 17)
    requires o.amount >= 0.0 && o.slippage >= 0.0 && MockRouter.ValidQuoteDraws(input.quotes)
    ensures
      var r := ProcessOrder(w, o, input, show);
      var chain := Chain(w.store[o.orderId], TryActions(o, input, show), input.now);
      && r.Done? && r.world.calls == w.calls + 17
      && Writes(r.world.log) == Writes(w.log) + chain
      && |chain| == 4 && o.orderId in r.world.store && r.world.store[o.orderId] == chain[3]
      && chain[0].status == Routing && chain[1].status == Building
      && chain[2].status == Submitted && chain[3].status == Confirmed
      && Redis.ActiveKey(o.orderId) !in r.world.cache
  {
    var best := BestFor(o, input);
    BestPriceNonNegative(o, input);
    GuardNeverTrips(best.price, o.slippage);
    var steps := TryActions(o, input, show);
    TryChain(w.store[o.orderId], o, input, show);
    RunCommits(w, o.orderId, steps, input.now);
    RunEndsUncached(w, o.orderId, steps, input.now);
  }

  /** The statuses a fault-free attempt writes are exactly routing,
      building, submitted and confirmed, in that order. */
  lemma CompletedStatuses(w: World, o: Order, input: AttemptInput, show: real -> string)
    requires Ready(w, o.orderId, 17)
    requires o.amount >= 0.0 && o.slippage >= 0.0 && MockRouter.ValidQuoteDraws(input.quotes)
    ensures
      var r := ProcessOrder(w, o, input, show);
      var before := |Writes(w.log)|;
      var s := WrittenStatuses(r.world.log);
      && |s| == before + 4
      && s[..before] == WrittenStatuses(w.log)
      && s[before..] == [Routing, Building, Submitted, Confirmed]
  {
    AttemptCompletes(w, o, input, show);
    StatusesAfter(Writes(w.log), Chain(w.store[o.orderId], TryActions(o, input, show), input.now));
  }

  /** The statuses of `base` followed by the four stages. */
  lemma StatusesAfter(base: seq<Order>, chain: seq<Order>)
    requires |chain| == 4
    requires chain[0].status == Routing && chain[1].status == Building
    requires chain[2].status == Submitted && chain[3].status == Confirmed
    ensures
      var s := Statuses(base + chain);
      && |s| == |base| + 4
      && s[..|base|] == Statuses(base)
      && s[|base|..] == [Routing, Building, Submitted, Confirmed]
  {
    var s := Statuses(base + chain);
    var expected := [Routing, Building, Submitted, Confirmed];
    forall i | 0 <= i < |base|
      ensures s[..|base|][i] == Statuses(base)[i]
    {
      assert (base + chain)[i] == base[i];
    }
    forall i | 0 <= i < 4
      ensures s[|base|..][i] == expected[i]
    {
      assert (base + chain)[|base| + i] == chain[i];
    }
  }

  /** The catch block on a stored order, its five calls completing: the
      record becomes failed with the error's message, keeping the venue, the
      price and the hash it had, and the cache entry is gone. */
  lemma CatchCommits(w: World, orderId: string, e: Error, now: Time)
    requires Ready(w, orderId, 5)
    ensures
      var c := Run(w, orderId, CatchActions(e), now);
      var o := w.store[orderId];
      var m := OrderService.Merge(o, Failed, FailPatch(e), now);
      && c.Done? && c.world.calls == w.calls + 5
      && Writes(c.world.log) == Writes(w.log) + [m]
      && orderId in c.world.store && c.world.store[orderId] == m
      && m.status == Failed && m.error == Some(e.Message())
      && m.selectedDex == o.selectedDex && m.executedPrice == o.executedPrice && m.txHash == o.txHash
      && Redis.ActiveKey(orderId) !in c.world.cache
  {
    var steps := CatchActions(e);
    CatchChain(w.store[orderId], e, now);
    RunCommits(w, orderId, steps, now);
    RunEndsUncached(w, orderId, steps, now);
  }

  lemma CatchChain(o: Order, e: Error, now: Time)
    ensures
      var steps := CatchActions(e);
      && Chain(o, steps, now) == [OrderService.Merge(o, Failed, FailPatch(e), now)]
      && Cost(steps) == 5 && NoRaise(steps) && steps[|steps| - 1] == DropCache
  {
    var steps := CatchActions(e);
    assert steps[1..] == [DropCache] && steps[1..][1..] == [];
    assert Cost(steps[1..]) == 1;
  }

  /** Whatever throws, an attempt on a stored order writes a prefix of the
      try block's chain, then at most the one failed record of the catch
      block, which is then what the store holds; a completed attempt wrote
      the whole chain and no failed record. */
  lemma AttemptShape(w: World, o: Order, input: AttemptInput, show: real -> string)
    returns (tryPart: seq<Order>, catchPart: seq<Order>)
    requires o.orderId in w.store && Postgres.WellKeyed(w.store)
    ensures
      var r := ProcessOrder(w, o, input, show);
      var chain := Chain(w.store[o.orderId], TryActions(o, input, show), input.now);
      && tryPart <= chain && |catchPart| <= 1
      && Writes(r.world.log) == Writes(w.log) + (tryPart + catchPart)
      && (r.Done? ==> tryPart == chain && catchPart == [])
      && (|catchPart| == 1 ==>
            && r.Threw? && catchPart[0].status == Failed
            && o.orderId in r.world.store && r.world.store[o.orderId] == catchPart[0])
  {
    tryPart, catchPart := TryCatchShape(w, o.orderId, TryActions(o, input, show), input.now);
  }

  /** `AttemptShape` for any steps of a `try` block. */
  lemma TryCatchShape(w: World, orderId: string, steps: seq<Action>, now: Time)
    returns (tryPart: seq<Order>, catchPart: seq<Order>)
    requires orderId in w.store && Postgres.WellKeyed(w.store)
    ensures
      var r := TryCatch(w, orderId, steps, now);
      var chain := Chain(w.store[orderId], steps, now);
      && tryPart <= chain && |catchPart| <= 1
      && Writes(r.world.log) == Writes(w.log) + (tryPart + catchPart)
      && (r.Done? ==> tryPart == chain && catchPart == [])
      && (|catchPart| == 1 ==>
            && r.Threw? && catchPart[0].status == Failed
            && orderId in r.world.store && r.world.store[orderId] == catchPart[0])
  {
    var chain := Chain(w.store[orderId], steps, now);
    var k := RunProgress(w, orderId, steps, now);
    var t := Run(w, orderId, steps, now);
    tryPart := chain[..k];
    if t.Done? {
      catchPart := [];
      assert tryPart == chain;
      return;
    }
    var w1 := t.world;
    var c := Run(w1, orderId, CatchActions(t.error), now);
    var j := RunProgress(w1, orderId, CatchActions(t.error), now);
    CatchChain(w1.store[orderId], t.error, now);
    var failed := OrderService.Merge(w1.store[orderId], Failed, FailPatch(t.error), now);
    catchPart := [failed][..j];
    WroteTrans(w, w1, c.world, orderId, tryPart, catchPart);
  }

  /** Every attempt starts over at routing: its first store write is the
      routing record, unless the routing update wrote nothing, in which
      case the attempt writes at most the failed record. */
  lemma AttemptStartsAtRouting(w: World, o: Order, input: AttemptInput, show: real -> string)
    returns (ws: seq<Order>)
    requires o.orderId in w.store && Postgres.WellKeyed(w.store)
    ensures
      var r := ProcessOrder(w, o, input, show);
      && Writes(r.world.log) == Writes(w.log) + ws
      && (|ws| == 0 || ws[0].status == Routing || (|ws| == 1 && ws[0].status == Failed))
  {
    var tryPart, catchPart := AttemptShape(w, o, input, show);
    TryStartsAtRouting(w.store[o.orderId], o, input, show);
    ws := tryPart + catchPart;
    FirstWrite(Chain(w.store[o.orderId], TryActions(o, input, show), input.now), tryPart, catchPart);
  }

  /** The try block's chain always starts with the routing record. */
  lemma TryStartsAtRouting(o0: Order, o: Order, input: AttemptInput, show: real -> string)
    ensures
      var chain := Chain(o0, TryActions(o, input, show), input.now);
      |chain| > 0 && chain[0].status == Routing
  {
  }

  lemma FirstWrite(chain: seq<Order>, tryPart: seq<Order>, catchPart: seq<Order>)
    requires |chain| > 0 && chain[0].status == Routing && tryPart <= chain
    requires |catchPart| <= 1 && (|catchPart| == 1 ==> catchPart[0].status == Failed)
    ensures
      var ws := tryPart + catchPart;
      |ws| == 0 || ws[0].status == Routing || (|ws| == 1 && ws[0].status == Failed)
  {
    if |tryPart| > 0 {
      assert (tryPart + catchPart)[0] == tryPart[0] == chain[0];
    } else {
      assert tryPart + catchPart == catchPart;
    }
  }

  /** An attempt on an id the store lacks: both the try block's and the
      catch block's updates fail with "not found", the second error is the
      one that escapes, and nothing is written anywhere. */
  lemma UnknownOrderAttempt(w: World, o: Order, input: AttemptInput, show: real -> string)
    requires o.orderId !in w.store && Clear(w, 2)
    ensures
      var r := ProcessOrder(w, o, input, show);
      && r.Threw? && r.error == NotFound(o.orderId)
      && r.world.store == w.store && r.world.cache == w.cache && Writes(r.world.log) == Writes(w.log)
  {
    var id := o.orderId;
    var now := input.now;
    var steps := TryActions(o, input, show);
    OrderService.UpdateUnknownOrder(w, id, Routing, OrderService.NoPatch, now);
    var u := OrderService.UpdateOrderStatus(w, id, Routing, OrderService.NoPatch, now);
    assert Run(w, id, steps, now) == Threw(u.error, u.world);
    var f := CatchActions(u.error);
    OrderService.UpdateUnknownOrder(u.world, id, Failed, FailPatch(u.error), now);
    var v := OrderService.UpdateOrderStatus(u.world, id, Failed, FailPatch(u.error), now);
    assert Run(u.world, id, f, now) == Threw(v.error, v.world);
  }

  /** The try block past the check, up to its cache delete: the four
      updates, then the delete. */
  lemma HappyPrefix(o0: Order, provider: DexProvider, x: MockRouter.Execution, now: Time)
    ensures
      var steps := [Update(Routing, OrderService.NoPatch)] + HappySteps(provider, x);
      var init := steps[..4];
      && steps == init + [DropCache] && NoRaise(init) && Cost(init) == 16
      && Chain(o0, init, now) == Chain(o0, steps, now)
  {
    var mR := OrderService.Merge(o0, Routing, OrderService.NoPatch, now);
    var mB := OrderService.Merge(mR, Building, BuildPatch(provider), now);
    var mS := OrderService.Merge(mB, Submitted, OrderService.NoPatch, now);
    var mC := OrderService.Merge(mS, Confirmed, ConfirmPatch(x), now);
    HappyChain(o0, provider, x, now);
    var s3: seq<Action> := [Update(Confirmed, ConfirmPatch(x))];
    var s2 := [Update(Submitted, OrderService.NoPatch)] + s3;
    var s1 := [Update(Building, BuildPatch(provider))] + s2;
    var s0 := [Update(Routing, OrderService.NoPatch)] + s1;
    assert s3[1..] == [] && s2[1..] == s3 && s1[1..] == s2 && s0[1..] == s1;
    assert Chain(mS, s3, now) == [mC] && Cost(s3) == 4;
    assert Chain(mB, s2, now) == [mS, mC] && Cost(s2) == 8;
    assert Chain(mR, s1, now) == [mB, mS, mC] && Cost(s1) == 12;
    assert Chain(o0, s0, now) == [mR, mB, mS, mC] && Cost(s0) == 16;
    assert s0 == ([Update(Routing, OrderService.NoPatch)] + HappySteps(provider, x))[..4];
  }

  /** Past the check, with its first sixteen calls completing, the try block
      reaches its cache delete with the confirmed record stored. */
  lemma TryUpToDelete(w: World, o: Order, input: AttemptInput, show: real -> string) returns (w1: World)
    requires Ready(w, o.orderId, 16) && !GuardTrips(BestFor(o, input).price, o.slippage)
    ensures
      var chain := Chain(w.store[o.orderId], TryActions(o, input, show), input.now);
      && Run(w, o.orderId, TryActions(o, input, show), input.now) == Run(w1, o.orderId, [DropCache], input.now)
      && w1.calls == w.calls + 16 && w1.faults == w.faults
      && |chain| == 4 && Wrote(w, w1, o.orderId, chain)
  {
    var id := o.orderId;
    var now := input.now;
    var steps := TryActions(o, input, show);
    var best := BestFor(o, input);
    TryChain(w.store[id], o, input, show);
    assert steps == [Update(Routing, OrderService.NoPatch)] + HappySteps(best.provider, ExecutionFor(o, best, input));
    HappyPrefix(w.store[id], best.provider, ExecutionFor(o, best, input), now);
    var init := steps[..4];
    RunAppend(w, id, init, [DropCache], now);
    RunCommits(w, id, init, now);
    w1 := Run(w, id, init, now).world;
  }

  /** The cache delete after the confirmed update throws: the catch block
      marks the order failed with that error while the hash, the price and
      the venue stay, so the final record is failed and carries a hash. */
  lemma DeleteFailureKeepsHash(w: World, o: Order, input: AttemptInput, show: real -> string)
    requires Ready(w, o.orderId, 16) && w.calls + 16 in w.faults
    requires forall i :: w.calls + 17 <= i < w.calls + 22 ==> i !in w.faults
    requires o.amount >= 0.0 && o.slippage >= 0.0 && MockRouter.ValidQuoteDraws(input.quotes)
    ensures
      var r := ProcessOrder(w, o, input, show);
      var msg := w.faults[w.calls + 16];
      var best := BestFor(o, input);
      var x := ExecutionFor(o, best, input);
      && r.Threw? && r.error == Infra(msg)
      && o.orderId in r.world.store
      && var rec := r.world.store[o.orderId];
      && rec.status == Failed && rec.error == Some(msg)
      && rec.txHash == Some(x.txHash) && rec.executedPrice == Some(x.executedPrice)
      && rec.selectedDex == Some(best.provider)
  {
    var id := o.orderId;
    var msg := w.faults[w.calls + 16];
    var w2 := DeleteThrows(w, o, input, show);
    CaughtRecord(w, id, TryActions(o, input, show), input.now, Infra(msg), w2);
  }

  /** The record `CatchRethrows` leaves, field by field. */
  lemma CaughtRecord(w: World, orderId: string, steps: seq<Action>, now: Time, e: Error, w1: World)
    requires Run(w, orderId, steps, now) == Threw(e, w1) && Ready(w1, orderId, 5)
    ensures
      var r := TryCatch(w, orderId, steps, now);
      var o1 := w1.store[orderId];
      && r.Threw? && r.error == e && orderId in r.world.store
      && var rec := r.world.store[orderId];
      && rec.status == Failed && rec.error == Some(e.Message())
      && rec.selectedDex == o1.selectedDex && rec.executedPrice == o1.executedPrice && rec.txHash == o1.txHash
  {
    CatchRethrows(w, orderId, steps, now, e, w1);
  }

  /** The try block of `DeleteFailureKeepsHash`: the cache delete throws
      with the confirmed record stored. */
  lemma DeleteThrows(w: World, o: Order, input: AttemptInput, show: real -> string) returns (w2: World)
    requires Ready(w, o.orderId, 16) && w.calls + 16 in w.faults
    requires forall i :: w.calls + 17 <= i < w.calls + 22 ==> i !in w.faults
    requires o.amount >= 0.0 && o.slippage >= 0.0 && MockRouter.ValidQuoteDraws(input.quotes)
    ensures
      && Run(w, o.orderId, TryActions(o, input, show), input.now) == Threw(Infra(w.faults[w.calls + 16]), w2)
      && Ready(w2, o.orderId, 5)
      && var best := BestFor(o, input);
      && var x := ExecutionFor(o, best, input);
      && var rec := w2.store[o.orderId];
      && rec.txHash == Some(x.txHash) && rec.executedPrice == Some(x.executedPrice)
      && rec.selectedDex == Some(best.provider)
  {
    var id := o.orderId;
    BestPriceNonNegative(o, input);
    GuardNeverTrips(BestFor(o, input).price, o.slippage);
    var w1 := TryUpToDelete(w, o, input, show);
    assert Run(w1, id, [DropCache], input.now) == DeleteCache(w1, id);
    w2 := Step(w1);
    TryChain(w.store[id], o, input, show);
  }

  /** A try block that throws, followed by a catch block whose first call
      (the read of the `failed` update) throws: that second error escapes
      instead of the first, and nothing is written or deleted after it. */
  lemma CatchFailureEscapes(w: World, orderId: string, steps: seq<Action>, now: Time, e: Error, w1: World)
    requires Run(w, orderId, steps, now) == Threw(e, w1) && w1.calls in w1.faults
    ensures
      var r := TryCatch(w, orderId, steps, now);
      && r.Threw? && r.error == Infra(w1.faults[w1.calls])
      && r.world.log == w1.log && r.world.store == w1.store && r.world.cache == w1.cache
  {
    var c := Run(w1, orderId, CatchActions(e), now);
    assert c == Threw(Infra(w1.faults[w1.calls]), Step(w1));
  }

  /** A try block that throws, followed by a catch block whose `failed`
      update throws at any of its calls: the update's error escapes with the
      world the update left, so the cache delete never runs. For a stored
      order the catch's effects are a strict prefix of the update's four. */
  lemma CatchUpdateThrowsEscapes(w: World, orderId: string, steps: seq<Action>, now: Time, e: Error, w1: World)
    requires Run(w, orderId, steps, now) == Threw(e, w1)
    requires OrderService.UpdateOrderStatus(w1, orderId, Failed, FailPatch(e), now).Threw?
    ensures
      var u := OrderService.UpdateOrderStatus(w1, orderId, Failed, FailPatch(e), now);
      var r := TryCatch(w, orderId, steps, now);
      && r.Threw? && r.error == u.error && r.world == u.world
      && |w1.log| <= |r.world.log|
      && (orderId in w1.store ==>
            var m := OrderService.Merge(w1.store[orderId], Failed, FailPatch(e), now);
            var all := OrderService.UpdateEffects(orderId, m, OrderService.EventFor(m, OrderService.StatusMessageFor(Failed, FailPatch(e)), now));
            && r.world.log[|w1.log|..] < all
            && CacheDelete(orderId) !in r.world.log[|w1.log|..])
  {
    var u := OrderService.UpdateOrderStatus(w1, orderId, Failed, FailPatch(e), now);
    assert Run(w1, orderId, CatchActions(e), now) == u;
    if orderId in w1.store {
      OrderService.ThrownUpdateEffects(w1, orderId, Failed, FailPatch(e), now);
    }
  }

  /** A try block that throws `e`, followed by a catch block whose five
      calls complete: the attempt rethrows `e`, and the record becomes
      failed with its message, keeping the venue, the price and the hash. */
  lemma CatchRethrows(w: World, orderId: string, steps: seq<Action>, now: Time, e: Error, w1: World)
    requires Run(w, orderId, steps, now) == Threw(e, w1) && Ready(w1, orderId, 5)
    ensures
      var r := TryCatch(w, orderId, steps, now);
      var o1 := w1.store[orderId];
      var m := OrderService.Merge(o1, Failed, FailPatch(e), now);
      && r == Threw(e, r.world) && r.world.calls == w1.calls + 5
      && Writes(r.world.log) == Writes(w1.log) + [m]
      && orderId in r.world.store && r.world.store[orderId] == m
      && m.status == Failed && m.error == Some(e.Message())
      && m.selectedDex == o1.selectedDex && m.executedPrice == o1.executedPrice && m.txHash == o1.txHash
      && Redis.ActiveKey(orderId) !in r.world.cache
  {
    CatchCommits(w1, orderId, e, now);
  }

  /** When the slippage check fires, routing is written, the check's error
      is recorded as the failed record's message and is what the attempt
      throws; no venue, hash or price is written. */
  lemma GuardFiresFails(w: World, o: Order, input: AttemptInput, show: real -> string)
    requires Ready(w, o.orderId, 9) && GuardTrips(BestFor(o, input).price, o.slippage)
    ensures
      var r := ProcessOrder(w, o, input, show);
      var e := SlippageExceeded(show(BestFor(o, input).price));
      var o0 := w.store[o.orderId];
      var mR := OrderService.Merge(o0, Routing, OrderService.NoPatch, input.now);
      var failed := OrderService.Merge(mR, Failed, FailPatch(e), input.now);
      && r == Threw(e, r.world) && r.world.calls == w.calls + 9
      && Writes(r.world.log) == Writes(w.log) + [mR] + [failed]
      && o.orderId in r.world.store && r.world.store[o.orderId] == failed
      && failed.status == Failed && failed.error == Some(e.Message())
      && failed.selectedDex == o0.selectedDex && failed.txHash == o0.txHash
      && failed.executedPrice == o0.executedPrice
  {
    var id := o.orderId;
    var e := SlippageExceeded(show(BestFor(o, input).price));
    var w1 := GuardTry(w, o, input, show);
    CatchCommits(w1, id, e, input.now);
  }

  /** The try block when the check fires: routing is written, then the
      check's error is thrown. */
  lemma GuardTry(w: World, o: Order, input: AttemptInput, show: real -> string) returns (w1: World)
    requires Ready(w, o.orderId, 9) && GuardTrips(BestFor(o, input).price, o.slippage)
    ensures
      var e := SlippageExceeded(show(BestFor(o, input).price));
      var mR := OrderService.Merge(w.store[o.orderId], Routing, OrderService.NoPatch, input.now);
      && Run(w, o.orderId, TryActions(o, input, show), input.now) == Threw(e, w1)
      && w1.calls == w.calls + 4 && w1.faults == w.faults && Ready(w1, o.orderId, 5)
      && Wrote(w, w1, o.orderId, [mR])
  {
    var id := o.orderId;
    var now := input.now;
    var e := SlippageExceeded(show(BestFor(o, input).price));
    var route := Update(Routing, OrderService.NoPatch);
    var steps := TryActions(o, input, show);
    assert steps == [route] + [Raise(e)];
    RunAppend(w, id, [route], [Raise(e)], now);
    StepCommits(w, id, route, now);
    w1 := Perform(w, id, route, now).world;
    assert Run(w, id, [route], now) == Done((), w1) by {
      assert [route][1..] == [];
    }
  }

  /** The confirmed update passes only the hash and the price, so its
      event message names a price and no venue. */
  lemma ConfirmedMessageHasNoVenue(x: MockRouter.Execution)
    ensures OrderService.StatusMessageFor(Confirmed, ConfirmPatch(x)) ==
      ExecutedAt(Some(x.executedPrice), None)
  {
  }

  /** After a completed attempt the cache holds nothing for the order, so a
      later `getOrder` misses the cache and returns the confirmed record
      from the store. */
  lemma CompletedThenRead(w: World, o: Order, input: AttemptInput, show: real -> string, later: Time)
    requires Ready(w, o.orderId, 17)
    requires o.amount >= 0.0 && o.slippage >= 0.0 && MockRouter.ValidQuoteDraws(input.quotes)
    requires Clear(ProcessOrder(w, o, input, show).world, 2)
    ensures
      var r := ProcessOrder(w, o, input, show);
      var chain := Chain(w.store[o.orderId], TryActions(o, input, show), input.now);
      var g := OrderService.GetOrder(r.world, o.orderId, later);
      && |chain| == 4
      && g.Done? && g.value == Some(chain[3]) && g.value.value.status == Confirmed
      && g.world.log == r.world.log + [CacheRead(o.orderId), StoreRead(o.orderId)]
  {
    AttemptCompletes(w, o, input, show);
    var r := ProcessOrder(w, o, input, show);
    Redis.GetAfterDelete(r.world.cache, o.orderId, later);
    assert Redis.GetActiveOrder(r.world.cache, o.orderId, later).None?;
    OrderService.GetOrderCacheMiss(r.world, o.orderId, later);
  }

  /** An attempt on a stored order leaves it stored, and the store keyed by
      id. */
  lemma AttemptKeepsOrder(w: World, o: Order, input: AttemptInput, show: real -> string)
    requires o.orderId in w.store && Postgres.WellKeyed(w.store)
    ensures
      var r := ProcessOrder(w, o, input, show);
      o.orderId in r.world.store && Postgres.WellKeyed(r.world.store)
  {
    var id := o.orderId;
    var steps := TryActions(o, input, show);
    var k := RunProgress(w, id, steps, input.now);
    var t := Run(w, id, steps, input.now);
    if t.Threw? {
      var j := RunProgress(t.world, id, CatchActions(t.error), input.now);
    }
  }

  // ---------------------------------------------------------------------
  // Retries

  datatype JobResult = Completed | DeadLettered(error: Error)

  /** A job after its attempts: the world, how many attempts ran, and how it
      ended. */
  datatype JobRun = JobRun(world: World, attempts: nat, result: JobResult)

  /** One attempt of a job, from the world it starts in and its draws. */
  type Attempt = (World, AttemptInput) -> Outcome<()>

  /** The worker's attempt on an `execute` job: `processOrder` on the job's
      order. */
  function Worker(o: Order, show: real -> string): Attempt {
    (w: World, input: AttemptInput) => ProcessOrder(w, o, input, show)
  }

  /** The queue's retry rule as a reference: run an attempt with the next
      draws; a completed attempt completes the job, a thrown one is retried
      while attempts remain, and the last thrown error fails the job. */
  function Retry(w: World, attempt: Attempt, inputs: seq<AttemptInput>): (run: JobRun)
    requires |inputs| >= 1
    ensures 1 <= run.attempts <= |inputs|
    ensures run.result.DeadLettered? ==> run.attempts == |inputs|
    decreases |inputs|
  {
    match attempt(w, inputs[0])
    case Done(_, w1) => JobRun(w1, 1, Completed)
    case Threw(e, w1) =>
      if |inputs| == 1 then JobRun(w1, 1, DeadLettered(e))
      else
        var rest := Retry(w1, attempt, inputs[1..]);
        JobRun(rest.world, rest.attempts + 1, rest.result)
  }

  /** The world in which attempt `i` starts, had every earlier one thrown. */
  function StartOf(w: World, attempt: Attempt, inputs: seq<AttemptInput>, i: nat): World
    requires i < |inputs|
    decreases i
  {
    if i == 0 then w
    else StartOf(attempt(w, inputs[0]).world, attempt, inputs[1..], i - 1)
  }

  /** Attempt `i` of a job: run from where the attempts before it left the
      world, with the draws of that attempt. */
  function AttemptAt(w: World, attempt: Attempt, inputs: seq<AttemptInput>, i: nat): Outcome<()>
    requires i < |inputs|
  {
    attempt(StartOf(w, attempt, inputs, i), inputs[i])
  }

  /** Every attempt but the last threw; the job ends in the last attempt's
      world, completed exactly when that attempt completed, otherwise
      failed with that attempt's error. */
  lemma {:induction false} RetryAttempts(w: World, attempt: Attempt, inputs: seq<AttemptInput>)
    requires |inputs| >= 1
    ensures
      var run := Retry(w, attempt, inputs);
      var last := AttemptAt(w, attempt, inputs, run.attempts - 1);
      && run.world == last.world
      && (run.result == Completed <==> last.Done?)
      && (last.Threw? ==> run.result == DeadLettered(last.error))
      && forall i :: 0 <= i < run.attempts - 1 ==> AttemptAt(w, attempt, inputs, i).Threw?
    decreases |inputs|
  {
    var first := attempt(w, inputs[0]);
    if first.Done? || |inputs| == 1 {
      return;
    }
    var w1 := first.world;
    var tail := inputs[1..];
    RetryAttempts(w1, attempt, tail);
    var n := Retry(w1, attempt, tail).attempts;
    forall i | 0 <= i < n + 1
      ensures AttemptAt(w, attempt, inputs, i) ==
        if i == 0 then first else AttemptAt(w1, attempt, tail, i - 1)
    {
      if i > 0 {
        assert tail[i - 1] == inputs[i];
      }
    }
  }

  /** A job's attempts never stop keeping the order stored. */
  lemma {:induction false} StartKeepsOrder(w: World, o: Order, inputs: seq<AttemptInput>, show: real -> string, i: nat)
    requires i < |inputs| && o.orderId in w.store && Postgres.WellKeyed(w.store)
    ensures
      var s := StartOf(w, Worker(o, show), inputs, i);
      o.orderId in s.store && Postgres.WellKeyed(s.store)
    decreases i
  {
    if i > 0 {
      AttemptKeepsOrder(w, o, inputs[0], show);
      StartKeepsOrder(ProcessOrder(w, o, inputs[0], show).world, o, inputs[1..], show, i - 1);
    }
  }

  /** Every attempt of a job on a stored order starts over at routing. */
  lemma EveryAttemptStartsAtRouting(w: World, o: Order, inputs: seq<AttemptInput>, show: real -> string, i: nat)
    returns (ws: seq<Order>)
    requires |inputs| >= 1 && o.orderId in w.store && Postgres.WellKeyed(w.store)
    requires i < Retry(w, Worker(o, show), inputs).attempts
    ensures
      var s := StartOf(w, Worker(o, show), inputs, i);
      && Writes(AttemptAt(w, Worker(o, show), inputs, i).world.log) == Writes(s.log) + ws
      && (|ws| == 0 || ws[0].status == Routing || (|ws| == 1 && ws[0].status == Failed))
  {
    StartKeepsOrder(w, o, inputs, show, i);
    ws := AttemptStartsAtRouting(StartOf(w, Worker(o, show), inputs, i), o, inputs[i], show);
  }

  /** An accepted order whose first attempt meets no fault completes on
      that attempt. */
  lemma FirstAttemptCompletes(w: World, o: Order, inputs: seq<AttemptInput>, show: real -> string)
    requires |inputs| >= 1 && Ready(w, o.orderId, 17)
    requires o.amount >= 0.0 && o.slippage >= 0.0 && MockRouter.ValidQuoteDraws(inputs[0].quotes)
    ensures
      var run := Retry(w, Worker(o, show), inputs);
      run.attempts == 1 && run.result == Completed
  {
    AttemptCompletes(w, o, inputs[0], show);
  }

  /** The worker running one job: `processOrder` on the job's order, with
      the job's allowance of attempts. */
  method RunJob(w: World, job: Job, inputs: seq<AttemptInput>, show: real -> string) returns (run: JobRun)
    requires job.options.attempts >= 1 && |inputs| == job.options.attempts
    ensures run == Retry(w, Worker(job.data, show), inputs)
    ensures 1 <= run.attempts <= job.options.attempts
  {
    run := RunAttempts(w, Worker(job.data, show), inputs);
  }

  /** The retry loop: attempts follow one another, each with the next
      draws, until one completes or the draws (one per allowed attempt) are
      used up. */
  method RunAttempts(w: World, attempt: Attempt, inputs: seq<AttemptInput>) returns (run: JobRun)
    requires |inputs| >= 1
    ensures run == Retry(w, attempt, inputs)
  {
    var i := 0;
    var start := w;
    var r := attempt(w, inputs[0]);
    while r.Threw? && i + 1 < |inputs|
      invariant 0 <= i < |inputs|
      invariant r == attempt(start, inputs[i])
      invariant Retry(w, attempt, inputs) == Shifted(Retry(start, attempt, inputs[i..]), i)
      decreases |inputs| - i
    {
      assert inputs[i..][0] == inputs[i] && inputs[i..][1..] == inputs[i + 1..];
      start := r.world;
      i := i + 1;
      r := attempt(start, inputs[i]);
    }
    assert inputs[i..][0] == inputs[i];
    run := JobRun(r.world, i + 1, if r.Done? then Completed else DeadLettered(r.error));
  }

  /** `run` as counted from a later attempt on: `i` more attempts. */
  function Shifted(run: JobRun, i: nat): JobRun {
    run.(attempts := run.attempts + i)
  }

  /** A job `addOrder` enqueued runs at most `MAX_RETRIES` attempts. */
  lemma AddedJobAttempts(queue: seq<Job>, o: Order, w: World, inputs: seq<AttemptInput>, show: real -> string)
    requires |inputs| == Config.MaxRetries
    ensures
      var job := AddOrder(queue, o)[|queue|];
      && job.options.attempts == |inputs|
      && 1 <= Retry(w, Worker(job.data, show), inputs).attempts <= 3
  {
  }
}
