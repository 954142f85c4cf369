/** The order service (services/order-service.ts): creates orders, applies
    status updates (read the store, merge, write store, then cache, then
    publish) and serves reads cache-first. It accepts any status after any
    other; ordering is left to its caller. */
module OrderService {
  import opened Wrappers
  import opened Types
  import opened Effects
  import Postgres
  import Redis

  /** The keys of `Partial<Order>` the engine's callers pass to an update. */
  datatype Patch = Patch(
    status: Option<OrderStatus>,
    selectedDex: Option<DexProvider>,
    executedPrice: Option<real>,
    txHash: Option<string>,
    error: Option<string>)

  /** `{}`: the default `updates`. */
  const NoPatch := Patch(None, None, None, None, None)

  const IdPrefix := "ord_"

  /** The message published by `createOrder` (not the `pending` entry of the status table). */
  const CreatedMessage := "Order created and queued for processing"

  /** The order `createOrder` builds from a request, a fresh uuid and the clock. */
  function NewOrder(req: OrderRequest, uuid: string, now: Time): (o: Order)
    ensures o.orderId == IdPrefix + uuid && o.orderId[..|IdPrefix|] == IdPrefix
    ensures o.tokenIn == req.tokenIn && o.tokenOut == req.tokenOut
    ensures o.amount == req.amount && o.slippage == req.slippage
    ensures o.status == Pending
    ensures o.selectedDex.None? && o.executedPrice.None? && o.txHash.None? && o.error.None?
    ensures o.createdAt == now && o.updatedAt == now
  {
    Order(IdPrefix + uuid, req.tokenIn, req.tokenOut, req.amount, req.slippage, Pending,
          None, None, None, None, now, now)
  }

  /** `{ ...order, status, ...updates, updatedAt: new Date() }`. */
  function Merge(o: Order, status: OrderStatus, p: Patch, now: Time): (m: Order)
    ensures Postgres.FixedPart(m) == Postgres.FixedPart(o)
    ensures p.status.None? ==> m.status == status
    ensures p.status.Some? ==> m.status == p.status.value
    ensures p.selectedDex.None? ==> m.selectedDex == o.selectedDex
    ensures p.selectedDex.Some? ==> m.selectedDex == p.selectedDex
    ensures p.executedPrice.None? ==> m.executedPrice == o.executedPrice
    ensures p.executedPrice.Some? ==> m.executedPrice == p.executedPrice
    ensures p.txHash.None? ==> m.txHash == o.txHash
    ensures p.txHash.Some? ==> m.txHash == p.txHash
    ensures p.error.None? ==> m.error == o.error
    ensures p.error.Some? ==> m.error == p.error
    ensures m.updatedAt == now
  {
    o.(status := p.status.ValueOr(status),
       selectedDex := o.selectedDex.OverriddenBy(p.selectedDex),
       executedPrice := o.executedPrice.OverriddenBy(p.executedPrice),
       txHash := o.txHash.OverriddenBy(p.txHash),
       error := o.error.OverriddenBy(p.error),
       updatedAt := now)
  }

  const PendingText := "Order received and pending processing"
  const RoutingText := "Finding best DEX route"
  const BuildingText := "Building transaction"
  const SubmittedText := "Transaction submitted to blockchain"
  const FailedPrefix := "Order failed: "
  const UnknownError := "Unknown error"

  /** `getStatusMessage`, from the status argument and `updates` (not the merged order). */
  function StatusMessageFor(status: OrderStatus, p: Patch): StatusMessage {
    match status
    case Pending => Text(PendingText)
    case Routing => Text(RoutingText)
    case Building => Text(BuildingText)
    case Submitted => Text(SubmittedText)
    case Confirmed => ExecutedAt(p.executedPrice, p.selectedDex)
    case Failed =>
      Text(FailedPrefix + if p.error.Some? && p.error.value != "" then p.error.value else UnknownError)
  }

  /** The message table: a fixed text per in-flight status; the confirmed
      message is rendered from the price and venue named in `updates`; the
      failed message falls back to "Unknown error" when `updates.error` is
      absent or empty. */
  lemma StatusMessages(status: OrderStatus, p: Patch)
    ensures var msg := StatusMessageFor(status, p);
      && (status == Pending ==> msg == Text("Order received and pending processing"))
      && (status == Routing ==> msg == Text("Finding best DEX route"))
      && (status == Building ==> msg == Text("Building transaction"))
      && (status == Submitted ==> msg == Text("Transaction submitted to blockchain"))
      && (status == Confirmed ==> msg == ExecutedAt(p.executedPrice, p.selectedDex))
      && (status == Failed && (p.error.None? || p.error == Some("")) ==>
            msg == Text("Order failed: Unknown error"))
      && (status == Failed && p.error.Some? && p.error.value != "" ==>
            msg == Text("Order failed: " + p.error.value))
  {
    assert FailedPrefix + UnknownError == "Order failed: Unknown error";
  }

  /** The event `publishStatusUpdate` builds: id, status and payload are read
      from the order itself, so every field an earlier update set reappears. */
  function EventFor(o: Order, message: StatusMessage, now: Time): (ev: WebSocketMessage)
    ensures ev.orderId == o.orderId && ev.status == o.status
    ensures ev.data == Some(MessageData(o.txHash, o.executedPrice, o.selectedDex, o.error))
  {
    WebSocketMessage(o.orderId, o.status, message, now,
                     Some(MessageData(o.txHash, o.executedPrice, o.selectedDex, o.error)))
  }

  /** `publishStatusUpdate`. */
  function PublishStatusUpdate(w: World, o: Order, message: StatusMessage, now: Time): (r: Outcome<()>)
    ensures Extends(w, r.world) && r.world.store == w.store && r.world.cache == w.cache
    ensures r.Done? ==> r.world.log == w.log + [Publish(EventFor(o, message, now))]
  {
    PublishUpdate(w, EventFor(o, message, now))
  }

  /** `createOrder`: build the pending order, then write the store, the cache
      and the event, in that order; any of the three may throw. */
  function CreateOrder(w: World, req: OrderRequest, uuid: string, now: Time): (r: Outcome<Order>)
    ensures Extends(w, r.world)
    ensures r.Done? ==> r.value == NewOrder(req, uuid, now)
  {
    var order := NewOrder(req, uuid, now);
    match WriteStore(w, order)
    case Threw(e, w1) => Threw(e, w1)
    case Done(_, w1) =>
      match WriteCache(w1, order.orderId, order, now)
      case Threw(e, w2) => Threw(e, w2)
      case Done(_, w2) =>
        match PublishStatusUpdate(w2, order, Text(CreatedMessage), now)
        case Threw(e, w3) => Threw(e, w3)
        case Done(_, w3) => Done(order, w3)
  }

  /** `updateOrderStatus`: read the stored order (NotFound when absent), merge
      the update, then write the store, the cache and the event, in that order. */
  function UpdateOrderStatus(w: World, orderId: string, status: OrderStatus, p: Patch, now: Time): (r: Outcome<()>)
    ensures Extends(w, r.world)
    ensures r.Done? ==> orderId in w.store
    ensures orderId !in w.store ==>
      && r.Threw?
      && (r.error == NotFound(orderId) <==> w.calls !in w.faults)
      && r.world.store == w.store && r.world.cache == w.cache && r.world.delivered == w.delivered
      && Writes(r.world.log) == Writes(w.log)
  {
    match ReadStore(w, orderId)
    case Threw(e, w1) => Threw(e, w1)
    case Done(found, w1) =>
      if found.None? then
        assert w1.log == w.log + [StoreRead(orderId)];
        WritesAppend(w.log, [StoreRead(orderId)]);
        Threw(NotFound(orderId), w1)
      else
        var updated := Merge(found.value, status, p, now);
        WriteThrough(w1, orderId, updated, StatusMessageFor(status, p), now)
  }

  /** The write-through half of an update: store, then cache, then event. */
  function WriteThrough(w: World, orderId: string, updated: Order, message: StatusMessage, now: Time): (r: Outcome<()>)
    ensures Extends(w, r.world)
  {
    match WriteStore(w, updated)
    case Threw(e, w1) => Threw(e, w1)
    case Done(_, w1) =>
      match WriteCache(w1, orderId, updated, now)
      case Threw(e, w2) => Threw(e, w2)
      case Done(_, w2) => PublishStatusUpdate(w2, updated, message, now)
  }

  /** `getOrder`: a live cache entry wins; otherwise the store answers. It
      never writes, and a cache miss does not repopulate the cache. */
  function GetOrder(w: World, orderId: string, now: Time): (r: Outcome<Option<Order>>)
    ensures Extends(w, r.world) && r.world.store == w.store && r.world.cache == w.cache
    ensures r.world.delivered == w.delivered
    ensures r.world.log == w.log || r.world.log == w.log + [CacheRead(orderId)]
         || r.world.log == w.log + [CacheRead(orderId), StoreRead(orderId)]
  {
    match ReadCache(w, orderId, now)
    case Threw(e, w1) => Threw(e, w1)
    case Done(hit, w1) =>
      if hit.Some? then Done(hit, w1) else ReadStore(w1, orderId)
  }

  // ---------------------------------------------------------------------
  // Properties

  /** The canonical effects of an update that completes. */
  function UpdateEffects(orderId: string, m: Order, ev: WebSocketMessage): seq<Effect> {
    [StoreRead(orderId), StoreWrite(m), CacheWrite(orderId, m), Publish(ev)]
  }

  /** A create whose three calls complete writes the store, then the cache,
      then publishes exactly one pending event for the new order; for a fresh
      id the store then holds exactly that order. */
  lemma CreateOrderCommits(w: World, req: OrderRequest, uuid: string, now: Time)
    requires Clear(w, 3)
    ensures
      var r := CreateOrder(w, req, uuid, now);
      var o := NewOrder(req, uuid, now);
      var ev := EventFor(o, Text(CreatedMessage), now);
      && r == Done(o, r.world)
      && r.world.log == w.log + [StoreWrite(o), CacheWrite(o.orderId, o), Publish(ev)]
      && ev.status == Pending && ev.orderId == o.orderId
      && r.world.cache == Redis.SetActiveOrder(w.cache, o.orderId, o, now)
      && (o.orderId !in w.store ==> r.world.store == w.store[o.orderId := o])
  {
    var o := NewOrder(req, uuid, now);
    var r1 := WriteStore(w, o);
    var r2 := WriteCache(r1.world, o.orderId, o, now);
    var r3 := PublishStatusUpdate(r2.world, o, Text(CreatedMessage), now);
    assert r1.Done? && r2.Done? && r3.Done?;
  }

  /** An update of an id the store lacks fails with "Order <id> not found"
      after reading the store, and writes nothing anywhere. */
  lemma UpdateUnknownOrder(w: World, orderId: string, status: OrderStatus, p: Patch, now: Time)
    requires orderId !in w.store && Clear(w, 1)
    ensures
      var r := UpdateOrderStatus(w, orderId, status, p, now);
      && r.Threw? && r.error.Message() == "Order " + orderId + " not found"
      && r.world.log == w.log + [StoreRead(orderId)]
      && r.world.store == w.store && r.world.cache == w.cache && r.world.delivered == w.delivered
  {
  }

  /** An update whose four calls complete: the store and the cache end up
      holding the same merged order, written store first, cache second,
      event third, and the event carries the merged order's fields. */
  lemma UpdateCommits(w: World, orderId: string, status: OrderStatus, p: Patch, now: Time)
    requires orderId in w.store && Postgres.WellKeyed(w.store) && Clear(w, 4)
    ensures
      var r := UpdateOrderStatus(w, orderId, status, p, now);
      var m := Merge(w.store[orderId], status, p, now);
      var ev := EventFor(m, StatusMessageFor(status, p), now);
      && r.Done?
      && r.world.store == w.store[orderId := m]
      && r.world.cache == Redis.SetActiveOrder(w.cache, orderId, m, now)
      && r.world.log == w.log + UpdateEffects(orderId, m, ev)
      && r.world.delivered == w.delivered + Deliveries(w.bus, ev)
      && r.world.calls == w.calls + 4
      && Postgres.WellKeyed(r.world.store)
  {
    var m := Merge(w.store[orderId], status, p, now);
    Postgres.SaveThenGet(w.store, m);
    var s := Postgres.SaveOrder(w.store, m);
    assert s == w.store[orderId := m];
    var r1 := ReadStore(w, orderId);
    var r2 := WriteStore(r1.world, m);
    var r3 := WriteCache(r2.world, orderId, m, now);
    var r4 := PublishStatusUpdate(r3.world, m, StatusMessageFor(status, p), now);
    assert r1.Done? && r2.Done? && r3.Done? && r4.Done?;
  }

  /** An update of a stored order that throws makes a strict prefix of its
      four effects, none of which deletes a cache entry. */
  lemma ThrownUpdateEffects(w: World, orderId: string, status: OrderStatus, p: Patch, now: Time)
    requires orderId in w.store && UpdateOrderStatus(w, orderId, status, p, now).Threw?
    ensures
      var r := UpdateOrderStatus(w, orderId, status, p, now);
      var m := Merge(w.store[orderId], status, p, now);
      var all := UpdateEffects(orderId, m, EventFor(m, StatusMessageFor(status, p), now));
      && |w.log| <= |r.world.log|
      && r.world.log[|w.log|..] < all
      && CacheDelete(orderId) !in r.world.log[|w.log|..]
  {
    UpdateEffectsArePrefix(w, orderId, status, p, now);
  }

  /** Whatever throws, an update's effects are a prefix of the canonical
      sequence: never the cache before the store, never the event before the
      cache. So the store holds at most the one merged order more. */
  lemma UpdateEffectsArePrefix(w: World, orderId: string, status: OrderStatus, p: Patch, now: Time)
    requires orderId in w.store
    ensures
      var r := UpdateOrderStatus(w, orderId, status, p, now);
      var m := Merge(w.store[orderId], status, p, now);
      var ev := EventFor(m, StatusMessageFor(status, p), now);
      && |w.log| <= |r.world.log|
      && r.world.log[|w.log|..] <= UpdateEffects(orderId, m, ev)
      && (r.Done? <==> r.world.log[|w.log|..] == UpdateEffects(orderId, m, ev))
  {
    var m := Merge(w.store[orderId], status, p, now);
    var ev := EventFor(m, StatusMessageFor(status, p), now);
    var all := UpdateEffects(orderId, m, ev);
    var r := UpdateOrderStatus(w, orderId, status, p, now);
    var k := UpdateProgress(w, orderId, status, p, now);
    AppendedSlice(w.log, all[..k]);
  }

  /** How many of the four canonical effects an update performed; the store
      holds the merged order from the second one on. */
  lemma UpdateProgress(w: World, orderId: string, status: OrderStatus, p: Patch, now: Time) returns (k: nat)
    requires orderId in w.store
    ensures
      var r := UpdateOrderStatus(w, orderId, status, p, now);
      var m := Merge(w.store[orderId], status, p, now);
      var ev := EventFor(m, StatusMessageFor(status, p), now);
      && k <= 4
      && r.world.log == w.log + UpdateEffects(orderId, m, ev)[..k]
      && r.world.store == (if k < 2 then w.store else Postgres.SaveOrder(w.store, m))
      && (r.Done? <==> k == 4)
  {
    var m := Merge(w.store[orderId], status, p, now);
    var ev := EventFor(m, StatusMessageFor(status, p), now);
    var msg := StatusMessageFor(status, p);
    var r1 := ReadStore(w, orderId);
    if r1.Threw? {
      ReadThrows(w, orderId, status, p, now);
      return 0;
    }
    UpdateIsWriteThrough(w, orderId, status, p, now);
    var j := WriteThroughProgress(r1.world, orderId, m, msg, now);
    EffectsAfterRead(w.log, orderId, m, ev, j);
    k := j + 1;
  }

  /** The first `j + 1` canonical effects: the read, then `j` writes. */
  lemma EffectsAfterRead(log: seq<Effect>, orderId: string, m: Order, ev: WebSocketMessage, j: nat)
    requires j <= 3
    ensures log + UpdateEffects(orderId, m, ev)[..j + 1]
         == (log + [StoreRead(orderId)]) + [StoreWrite(m), CacheWrite(orderId, m), Publish(ev)][..j]
  {
    var rest := [StoreWrite(m), CacheWrite(orderId, m), Publish(ev)];
    assert UpdateEffects(orderId, m, ev)[..j + 1] == [StoreRead(orderId)] + rest[..j];
  }

  /** An update whose store read throws stops there. */
  lemma ReadThrows(w: World, orderId: string, status: OrderStatus, p: Patch, now: Time)
    requires ReadStore(w, orderId).Threw?
    ensures UpdateOrderStatus(w, orderId, status, p, now).world == ReadStore(w, orderId).world
  {
  }

  /** Past a completed read of a stored order, an update is its write-through half. */
  lemma UpdateIsWriteThrough(w: World, orderId: string, status: OrderStatus, p: Patch, now: Time)
    requires orderId in w.store && ReadStore(w, orderId).Done?
    ensures UpdateOrderStatus(w, orderId, status, p, now)
         == WriteThrough(ReadStore(w, orderId).world, orderId, Merge(w.store[orderId], status, p, now),
                         StatusMessageFor(status, p), now)
  {
  }

  /** How many of its three writes the write-through half performed; the
      store holds the order from the first one on. */
  lemma WriteThroughProgress(w: World, orderId: string, m: Order, message: StatusMessage, now: Time) returns (k: nat)
    ensures
      var r := WriteThrough(w, orderId, m, message, now);
      && k <= 3
      && r.world.log == w.log + [StoreWrite(m), CacheWrite(orderId, m), Publish(EventFor(m, message, now))][..k]
      && r.world.store == (if k == 0 then w.store else Postgres.SaveOrder(w.store, m))
      && (r.Done? <==> k == 3)
  {
    var all := [StoreWrite(m), CacheWrite(orderId, m), Publish(EventFor(m, message, now))];
    var r1 := WriteStore(w, m);
    if r1.Threw? {
      return 0;
    }
    var r2 := WriteCache(r1.world, orderId, m, now);
    if r2.Threw? {
      assert all[..1] == [StoreWrite(m)];
      return 1;
    }
    assert all[..2] == [StoreWrite(m), CacheWrite(orderId, m)];
    assert all[..3] == all;
    var r3 := PublishStatusUpdate(r2.world, m, message, now);
    k := if r3.Threw? then 2 else 3;
  }

  lemma AppendedSlice<T>(a: seq<T>, b: seq<T>)
    ensures (a + b)[|a|..] == b
  {
  }

  /** Read your writes: right after a completed update, `getOrder` returns
      the merged order from the cache, with the status just written. */
  lemma ReadYourWrites(w: World, orderId: string, status: OrderStatus, p: Patch, now: Time, later: Time)
    requires orderId in w.store && Postgres.WellKeyed(w.store) && Clear(w, 5)
    requires later < now + Redis.ActiveTtlMs
    ensures
      var r := UpdateOrderStatus(w, orderId, status, p, now);
      var g := GetOrder(r.world, orderId, later);
      var m := Merge(w.store[orderId], status, p, now);
      && g.Done? && g.value == Some(m)
      && m.status == (if p.status.Some? then p.status.value else status)
  {
    UpdateCommits(w, orderId, status, p, now);
  }

  /** A live cache entry is returned without touching the store. */
  lemma GetOrderCacheHit(w: World, orderId: string, now: Time)
    requires Clear(w, 1)
    requires Redis.GetActiveOrder(w.cache, orderId, now).Some?
    ensures
      var r := GetOrder(w, orderId, now);
      r.Done? && r.value == Redis.GetActiveOrder(w.cache, orderId, now) && r.world.log == w.log + [CacheRead(orderId)]
  {
  }

  /** On a miss the store's answer is returned (None for an unknown id) and
      the cache is left as it was. */
  lemma GetOrderCacheMiss(w: World, orderId: string, now: Time)
    requires Clear(w, 2)
    requires Redis.GetActiveOrder(w.cache, orderId, now).None?
    ensures
      var r := GetOrder(w, orderId, now);
      && r.Done? && r.value == Postgres.GetOrder(w.store, orderId)
      && (orderId !in w.store ==> r.value.None?)
      && r.world.log == w.log + [CacheRead(orderId), StoreRead(orderId)]
      && r.world.cache == w.cache
  {
  }

  /** In store-write terms, whatever throws: an update of a stored order
      adds no write and leaves the store alone, or writes exactly the merged
      order, which the store then holds; it always writes when it completes. */
  lemma UpdateWrites(w: World, orderId: string, status: OrderStatus, p: Patch, now: Time)
    requires orderId in w.store && Postgres.WellKeyed(w.store)
    ensures
      var r := UpdateOrderStatus(w, orderId, status, p, now);
      var m := Merge(w.store[orderId], status, p, now);
      && Postgres.WellKeyed(r.world.store)
      && ((r.Threw? && Writes(r.world.log) == Writes(w.log) && r.world.store == w.store)
          || (Writes(r.world.log) == Writes(w.log) + [m] && r.world.store == w.store[orderId := m]))
  {
    var m := Merge(w.store[orderId], status, p, now);
    var ev := EventFor(m, StatusMessageFor(status, p), now);
    var k := UpdateProgress(w, orderId, status, p, now);
    WritesOfPrefix(orderId, m, ev, k);
    WritesAppend(w.log, UpdateEffects(orderId, m, ev)[..k]);
    Postgres.SaveThenGet(w.store, m);
    assert Postgres.SaveOrder(w.store, m) == w.store[orderId := m];
  }

  /** The store writes among the first `k` canonical effects of an update. */
  lemma WritesOfPrefix(orderId: string, m: Order, ev: WebSocketMessage, k: nat)
    requires k <= 4
    ensures Writes(UpdateEffects(orderId, m, ev)[..k]) == if k < 2 then [] else [m]
  {
    var all := UpdateEffects(orderId, m, ev);
    if k == 0 {
      assert all[..k] == [];
    } else if k == 1 {
      assert all[..k] == [StoreRead(orderId)];
    } else {
      var tail := all[2..k];
      assert all[..k] == [StoreRead(orderId), StoreWrite(m)] + tail;
      WritesAppend([StoreRead(orderId), StoreWrite(m)], tail);
      assert [StoreRead(orderId), StoreWrite(m)][1..] == [StoreWrite(m)];
      assert Writes([StoreWrite(m)]) == [m];
      if k == 3 {
        assert tail == [CacheWrite(orderId, m)];
      } else if k == 4 {
        assert tail == [CacheWrite(orderId, m), Publish(ev)];
        assert Writes(tail) == Writes(tail[1..]);
      }
    }
  }

  /** The store writes of a completed update: exactly the merged order. */
  lemma CommittedWrites(log: seq<Effect>, orderId: string, m: Order, ev: WebSocketMessage)
    ensures Writes(log + UpdateEffects(orderId, m, ev)) == Writes(log) + [m]
  {
    WritesOfPrefix(orderId, m, ev, 4);
    assert UpdateEffects(orderId, m, ev)[..4] == UpdateEffects(orderId, m, ev);
    WritesAppend(log, UpdateEffects(orderId, m, ev));
  }
}
