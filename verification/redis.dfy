/** The Redis side (db/redis.ts): the active-order cache, keyed by
    `"active:" + orderId` with a one-hour expiry, and the publish/subscribe
    bus, one channel `"order:" + orderId` per order, served by one shared
    subscriber connection. */
module Redis {
  import opened Wrappers
  import opened Types

  /** `EX 3600` on every `setActiveOrder`. */
  const ActiveTtlSeconds: nat := 3600

  const ActiveTtlMs: nat := ActiveTtlSeconds * 1000

  function ActiveKey(orderId: string): string { "active:" + orderId }

  function Channel(orderId: string): string { "order:" + orderId }

  lemma PrefixCancel(p: string, a: string, b: string)
    requires p + a == p + b
    ensures a == b
  {
    assert a == (p + a)[|p|..];
    assert b == (p + b)[|p|..];
  }

  lemma ActiveKeyInjective(a: string, b: string)
    requires ActiveKey(a) == ActiveKey(b)
    ensures a == b
  {
    PrefixCancel("active:", a, b);
  }

  lemma ChannelInjective(a: string, b: string)
    requires Channel(a) == Channel(b)
    ensures a == b
  {
    PrefixCancel("order:", a, b);
  }

  // ---------------------------------------------------------------------
  // Active-order cache

  /** A cached order snapshot and the instant its key expires. */
  datatype CacheEntry = CacheEntry(snapshot: Order, expiresAt: Time)

  type Cache = map<string, CacheEntry>

  /** `setActiveOrder`: overwrite the snapshot and restart its expiry. */
  function SetActiveOrder(c: Cache, orderId: string, snapshot: Order, now: Time): (c': Cache)
    ensures c'.Keys == c.Keys + {ActiveKey(orderId)}
    ensures c'[ActiveKey(orderId)] == CacheEntry(snapshot, now + ActiveTtlMs)
    ensures forall k :: k in c && k != ActiveKey(orderId) ==> c'[k] == c[k]
  {
    c[ActiveKey(orderId) := CacheEntry(snapshot, now + ActiveTtlMs)]
  }

  /** `getActiveOrder`: the snapshot if its key exists and has not expired. */
  function GetActiveOrder(c: Cache, orderId: string, now: Time): (r: Option<Order>)
    ensures r.Some? <==> ActiveKey(orderId) in c && now < c[ActiveKey(orderId)].expiresAt
    ensures r.Some? ==> r.value == c[ActiveKey(orderId)].snapshot
  {
    var key := ActiveKey(orderId);
    if key in c && now < c[key].expiresAt then Some(c[key].snapshot) else None
  }

  /** `deleteActiveOrder`: drop the key. */
  function DeleteActiveOrder(c: Cache, orderId: string): (c': Cache)
    ensures c'.Keys == c.Keys - {ActiveKey(orderId)}
    ensures forall k :: k in c' ==> c'[k] == c[k]
  {
    c - {ActiveKey(orderId)}
  }

  /** A read within the hour after a set returns that snapshot. */
  lemma GetAfterSet(c: Cache, orderId: string, snapshot: Order, setAt: Time, now: Time)
    requires now < setAt + ActiveTtlMs
    ensures GetActiveOrder(SetActiveOrder(c, orderId, snapshot, setAt), orderId, now) == Some(snapshot)
  {
  }

  /** Once the hour after the last set has passed, the snapshot is gone. */
  lemma ExpiresAfterTtl(c: Cache, orderId: string, snapshot: Order, setAt: Time, now: Time)
    requires now >= setAt + ActiveTtlMs
    ensures GetActiveOrder(SetActiveOrder(c, orderId, snapshot, setAt), orderId, now) == None
  {
  }

  /** A second set replaces the first snapshot and its expiry entirely. */
  lemma SetOverwrites(c: Cache, orderId: string, a: Order, b: Order, t1: Time, t2: Time)
    ensures SetActiveOrder(SetActiveOrder(c, orderId, a, t1), orderId, b, t2) == SetActiveOrder(c, orderId, b, t2)
  {
  }

  /** After a delete, a read finds nothing. */
  lemma GetAfterDelete(c: Cache, orderId: string, now: Time)
    ensures GetActiveOrder(DeleteActiveOrder(c, orderId), orderId, now) == None
  {
  }

  /** Cache writes for one order never change what a read of another order sees. */
  lemma CacheIsolation(c: Cache, orderId: string, other: string, snapshot: Order, setAt: Time, now: Time)
    requires orderId != other
    ensures GetActiveOrder(SetActiveOrder(c, orderId, snapshot, setAt), other, now) == GetActiveOrder(c, other, now)
    ensures GetActiveOrder(DeleteActiveOrder(c, orderId), other, now) == GetActiveOrder(c, other, now)
  {
    if ActiveKey(orderId) == ActiveKey(other) {
      ActiveKeyInjective(orderId, other);
    }
  }

  // ---------------------------------------------------------------------
  // Publish / subscribe

  /** Identifies one callback handed to `subscribeToOrder`. */
  type CallbackId = nat

  /** A `'message'` listener on the shared subscriber: it calls `callback`
      for messages arriving on `channel` and ignores all others. */
  datatype Listener = Listener(channel: string, callback: CallbackId)

  /** The shared subscriber connection: the channels it is subscribed to and
      the listeners attached to it, in attachment order. */
  datatype Bus = Bus(subscribed: set<string>, listeners: seq<Listener>)

  /** `subscribeToOrder`: subscribe the channel and attach one more listener. */
  function SubscribeToOrder(b: Bus, orderId: string, callback: CallbackId): (b': Bus)
    ensures b'.subscribed == b.subscribed + {Channel(orderId)}
    ensures b'.listeners == b.listeners + [Listener(Channel(orderId), callback)]
  {
    Bus(b.subscribed + {Channel(orderId)}, b.listeners + [Listener(Channel(orderId), callback)])
  }

  /** `unsubscribeFromOrder`: unsubscribe the channel; the listeners stay. */
  function UnsubscribeFromOrder(b: Bus, orderId: string): (b': Bus)
    ensures b'.subscribed == b.subscribed - {Channel(orderId)}
    ensures b'.listeners == b.listeners
  {
    b.(subscribed := b.subscribed - {Channel(orderId)})
  }

  /** The callbacks, in listener order, that a message arriving on `ch` reaches. */
  function Receivers(ls: seq<Listener>, ch: string): (r: seq<CallbackId>)
    ensures |r| <= |ls|
    ensures forall cb :: cb in r <==> exists i :: 0 <= i < |ls| && ls[i] == Listener(ch, cb)
  {
    if |ls| == 0 then []
    else
      var rest := Receivers(ls[1..], ch);
      assert forall i :: 0 < i < |ls| ==> ls[i] == ls[1..][i - 1];
      if ls[0].channel == ch then [ls[0].callback] + rest else rest
  }

  lemma {:induction false} ReceiversAppend(a: seq<Listener>, b: seq<Listener>, ch: string)
    ensures Receivers(a + b, ch) == Receivers(a, ch) + Receivers(b, ch)
    decreases |a|
  {
    if |a| == 0 {
      assert a + b == b;
    } else {
      assert (a + b)[1..] == a[1..] + b;
      ReceiversAppend(a[1..], b, ch);
    }
  }

  /** The callbacks `publishOrderUpdate(msg)` reaches: the message goes out on
      the order's channel, and only a subscribed channel is delivered. */
  function Recipients(b: Bus, msg: WebSocketMessage): (r: seq<CallbackId>)
    ensures forall cb :: cb in r <==>
      Channel(msg.orderId) in b.subscribed
      && exists i :: 0 <= i < |b.listeners| && b.listeners[i] == Listener(Channel(msg.orderId), cb)
  {
    var ch := Channel(msg.orderId);
    if ch in b.subscribed then Receivers(b.listeners, ch) else []
  }

  /** A fresh subscription receives the order's next message. */
  lemma SubscriberReceives(b: Bus, orderId: string, callback: CallbackId, msg: WebSocketMessage)
    requires msg.orderId == orderId
    ensures callback in Recipients(SubscribeToOrder(b, orderId, callback), msg)
  {
    var b' := SubscribeToOrder(b, orderId, callback);
    assert b'.listeners[|b.listeners|] == Listener(Channel(orderId), callback);
  }

  /** After unsubscribing, nothing published for that order is delivered. */
  lemma UnsubscribeSilences(b: Bus, orderId: string, msg: WebSocketMessage)
    requires msg.orderId == orderId
    ensures Recipients(UnsubscribeFromOrder(b, orderId), msg) == []
  {
  }

  /** Unsubscribe drops the channel, not the callback: subscribing again
      revives every earlier callback of that order alongside the new one. */
  lemma ResubscribeRevives(b: Bus, orderId: string, first: CallbackId, second: CallbackId, msg: WebSocketMessage)
    requires msg.orderId == orderId
    ensures
      var b' := SubscribeToOrder(UnsubscribeFromOrder(SubscribeToOrder(b, orderId, first), orderId), orderId, second);
      first in Recipients(b', msg) && second in Recipients(b', msg)
  {
    var b1 := SubscribeToOrder(b, orderId, first);
    var b' := SubscribeToOrder(UnsubscribeFromOrder(b1, orderId), orderId, second);
    assert b'.listeners[|b.listeners|] == Listener(Channel(orderId), first);
    assert b'.listeners[|b.listeners| + 1] == Listener(Channel(orderId), second);
  }

  /** Subscribing or unsubscribing one order leaves delivery for every other order unchanged. */
  lemma BusIsolation(b: Bus, orderId: string, callback: CallbackId, msg: WebSocketMessage)
    requires msg.orderId != orderId
    ensures Recipients(SubscribeToOrder(b, orderId, callback), msg) == Recipients(b, msg)
    ensures Recipients(UnsubscribeFromOrder(b, orderId), msg) == Recipients(b, msg)
  {
    var ch := Channel(msg.orderId);
    if Channel(orderId) == ch {
      ChannelInjective(orderId, msg.orderId);
    }
    ReceiversAppend(b.listeners, [Listener(Channel(orderId), callback)], ch);
    assert Receivers([Listener(Channel(orderId), callback)], ch) == [];
  }
}
