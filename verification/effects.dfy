/** The world the order service and the worker act on, and the I/O calls
    they make against it. Every store, cache and publish call is a numbered
    step; `faults` says which steps throw (a database that cannot be reached
    or rejects the statement, or an error reply from Redis) and with what
    message. A call that throws changes nothing; a call that
    completes is appended to `log`, so `log` is the order in which the
    effects took place. */
module Effects {
  import opened Wrappers
  import opened Types
  import Postgres
  import Redis

  /** One completed I/O call. */
  datatype Effect =
    | StoreRead(orderId: string)
    | StoreWrite(order: Order)
    | CacheRead(orderId: string)
    | CacheWrite(orderId: string, order: Order)
    | CacheDelete(orderId: string)
    | Publish(message: WebSocketMessage)

  /** One message handed to one subscriber callback. */
  datatype Delivery = Delivery(callback: Redis.CallbackId, message: WebSocketMessage)

  datatype World = World(
    store: Postgres.Store,
    cache: Redis.Cache,
    bus: Redis.Bus,
    log: seq<Effect>,
    delivered: seq<Delivery>,
    calls: nat,
    faults: map<nat, string>)

  /** What a failing call throws, by origin. */
  datatype Error =
    | NotFound(orderId: string)
    | SlippageExceeded(priceText: string)
    | Infra(text: string)
  {
    /** `error.message`. */
    function Message(): string {
      match this
      case NotFound(id) => "Order " + id + " not found"
      case SlippageExceeded(p) => "Price " + p + " exceeds slippage tolerance"
      case Infra(t) => t
    }
  }

  /** The result of a step: its value and the world after it, or what it threw. */
  datatype Outcome<T> = Done(value: T, world: World) | Threw(error: Error, world: World)

  /** The calls numbered `w.calls .. w.calls + n - 1` all complete. */
  ghost predicate Clear(w: World, n: nat) {
    forall i :: w.calls <= i < w.calls + n ==> i !in w.faults
  }

  /** `w'` is `w` after further calls: the log only grew, the bus and the
      fault plan are untouched. */
  ghost predicate Extends(w: World, w': World) {
    && w.log <= w'.log
    && w.delivered <= w'.delivered
    && w'.calls >= w.calls
    && w'.bus == w.bus
    && w'.faults == w.faults
  }

  lemma ExtendsTrans(w1: World, w2: World, w3: World)
    requires Extends(w1, w2) && Extends(w2, w3)
    ensures Extends(w1, w3)
  {
  }

  /** Count one call without changing anything else. */
  function Step(w: World): (w': World)
    ensures w'.calls == w.calls + 1
  {
    w.(calls := w.calls + 1)
  }

  /** Perform one call: if its number is in the fault plan it throws and
      changes nothing; otherwise `w'` takes effect and `e` is logged. */
  function Call<T>(w: World, e: Effect, w': World, value: T): (r: Outcome<T>)
    requires w'.calls == w.calls && w'.faults == w.faults && w'.log == w.log && w'.bus == w.bus
    requires w.delivered <= w'.delivered
    ensures r.Threw? <==> w.calls in w.faults
    ensures r.Threw? ==> r.error == Infra(w.faults[w.calls]) && r.world == Step(w)
    ensures r.Done? ==> r.value == value && r.world == Step(w').(log := w.log + [e])
    ensures Extends(w, r.world) && r.world.calls == w.calls + 1
  {
    if w.calls in w.faults then Threw(Infra(w.faults[w.calls]), Step(w))
    else Done(value, Step(w').(log := w.log + [e]))
  }

  /** `postgresClient.getOrder`. */
  function ReadStore(w: World, orderId: string): (r: Outcome<Option<Order>>)
    ensures Extends(w, r.world) && r.world.store == w.store && r.world.cache == w.cache
    ensures r.Done? <==> w.calls !in w.faults
    ensures r.Done? ==> r.value == Postgres.GetOrder(w.store, orderId) && r.world.log == w.log + [StoreRead(orderId)]
  {
    Call(w, StoreRead(orderId), w, Postgres.GetOrder(w.store, orderId))
  }

  /** `postgresClient.saveOrder`. */
  function WriteStore(w: World, o: Order): (r: Outcome<()>)
    ensures Extends(w, r.world) && r.world.cache == w.cache
    ensures r.Done? <==> w.calls !in w.faults
    ensures r.Done? ==> r.world.store == Postgres.SaveOrder(w.store, o) && r.world.log == w.log + [StoreWrite(o)]
    ensures r.Threw? ==> r.world.store == w.store && r.world.log == w.log
  {
    Call(w, StoreWrite(o), w.(store := Postgres.SaveOrder(w.store, o)), ())
  }

  /** `redisClient.getActiveOrder`. */
  function ReadCache(w: World, orderId: string, now: Time): (r: Outcome<Option<Order>>)
    ensures Extends(w, r.world) && r.world.store == w.store && r.world.cache == w.cache
    ensures r.Done? <==> w.calls !in w.faults
    ensures r.Done? ==> r.value == Redis.GetActiveOrder(w.cache, orderId, now) && r.world.log == w.log + [CacheRead(orderId)]
  {
    Call(w, CacheRead(orderId), w, Redis.GetActiveOrder(w.cache, orderId, now))
  }

  /** `redisClient.setActiveOrder`. */
  function WriteCache(w: World, orderId: string, o: Order, now: Time): (r: Outcome<()>)
    ensures Extends(w, r.world) && r.world.store == w.store
    ensures r.Done? <==> w.calls !in w.faults
    ensures r.Done? ==> r.world.cache == Redis.SetActiveOrder(w.cache, orderId, o, now) && r.world.log == w.log + [CacheWrite(orderId, o)]
    ensures r.Threw? ==> r.world.cache == w.cache && r.world.log == w.log
  {
    Call(w, CacheWrite(orderId, o), w.(cache := Redis.SetActiveOrder(w.cache, orderId, o, now)), ())
  }

  /** `redisClient.deleteActiveOrder`. */
  function DeleteCache(w: World, orderId: string): (r: Outcome<()>)
    ensures Extends(w, r.world) && r.world.store == w.store
    ensures r.Done? <==> w.calls !in w.faults
    ensures r.Done? ==> r.world.cache == Redis.DeleteActiveOrder(w.cache, orderId) && r.world.log == w.log + [CacheDelete(orderId)]
    ensures r.Threw? ==> r.world.cache == w.cache && r.world.log == w.log
  {
    Call(w, CacheDelete(orderId), w.(cache := Redis.DeleteActiveOrder(w.cache, orderId)), ())
  }

  /** The deliveries one publish of `msg` makes, in listener order. */
  function Deliveries(b: Redis.Bus, msg: WebSocketMessage): (ds: seq<Delivery>)
    ensures |ds| == |Redis.Recipients(b, msg)|
    ensures forall i :: 0 <= i < |ds| ==> ds[i] == Delivery(Redis.Recipients(b, msg)[i], msg)
    ensures forall d :: d in ds ==> d.message == msg && d.callback in Redis.Recipients(b, msg)
  {
    var cbs := Redis.Recipients(b, msg);
    seq(|cbs|, i requires 0 <= i < |cbs| => Delivery(cbs[i], msg))
  }

  /** `redisClient.publishOrderUpdate`: published on `"order:" + msg.orderId`
      and handed to that channel's callbacks. */
  function PublishUpdate(w: World, msg: WebSocketMessage): (r: Outcome<()>)
    ensures Extends(w, r.world) && r.world.store == w.store && r.world.cache == w.cache
    ensures r.Done? <==> w.calls !in w.faults
    ensures r.Done? ==> r.world.log == w.log + [Publish(msg)] && r.world.delivered == w.delivered + Deliveries(w.bus, msg)
    ensures r.Threw? ==> r.world.log == w.log && r.world.delivered == w.delivered
  {
    Call(w, Publish(msg), w.(delivered := w.delivered + Deliveries(w.bus, msg)), ())
  }

  /** The orders written to the store, in log order. */
  function Writes(log: seq<Effect>): seq<Order> {
    if |log| == 0 then []
    else (if log[0].StoreWrite? then [log[0].order] else []) + Writes(log[1..])
  }

  lemma {:induction false} WritesAppend(a: seq<Effect>, b: seq<Effect>)
    ensures Writes(a + b) == Writes(a) + Writes(b)
    decreases |a|
  {
    if |a| == 0 {
      assert a + b == b;
    } else {
      var head := if a[0].StoreWrite? then [a[0].order] else [];
      assert (a + b)[0] == a[0] && (a + b)[1..] == a[1..] + b;
      assert Writes(a + b) == head + Writes(a[1..] + b);
      WritesAppend(a[1..], b);
      assert Writes(a) == head + Writes(a[1..]);
    }
  }

  /** An effect other than a store write adds no write. */
  lemma WritesSkip(log: seq<Effect>, e: Effect)
    requires !e.StoreWrite?
    ensures Writes(log + [e]) == Writes(log)
  {
    WritesAppend(log, [e]);
    assert Writes([e]) == [] + Writes([e][1..]);
  }

  /** The statuses of `ws`, in order. */
  function Statuses(ws: seq<Order>): (r: seq<OrderStatus>)
    ensures |r| == |ws|
    ensures forall i :: 0 <= i < |r| ==> r[i] == ws[i].status
  {
    seq(|ws|, i requires 0 <= i < |ws| => ws[i].status)
  }

  /** The statuses written to the store, in log order. */
  function WrittenStatuses(log: seq<Effect>): seq<OrderStatus> {
    Statuses(Writes(log))
  }
}
