/** The durable order store (db/postgres.ts): one row per order id, written
    by an upsert whose conflict branch rewrites only the lifecycle columns. */
module Postgres {
  import opened Wrappers
  import opened Types

  /** The `orders` table, keyed by its primary key `order_id`. */
  type Store = map<string, Order>

  /** Every row sits under its own order id. */
  predicate WellKeyed(s: Store) {
    forall id :: id in s ==> s[id].orderId == id
  }

  /** The columns written only by the first insert. */
  datatype Fixed = Fixed(orderId: string, tokenIn: string, tokenOut: string, amount: real,
                         slippage: real, createdAt: Time)

  /** The columns the conflict branch rewrites. */
  datatype Lifecycle = Lifecycle(status: OrderStatus, selectedDex: Option<DexProvider>,
                                 executedPrice: Option<real>, txHash: Option<string>,
                                 error: Option<string>, updatedAt: Time)

  function FixedPart(o: Order): Fixed {
    Fixed(o.orderId, o.tokenIn, o.tokenOut, o.amount, o.slippage, o.createdAt)
  }

  function LifecyclePart(o: Order): Lifecycle {
    Lifecycle(o.status, o.selectedDex, o.executedPrice, o.txHash, o.error, o.updatedAt)
  }

  /** The row made of the given fixed and lifecycle columns. */
  function Assemble(f: Fixed, l: Lifecycle): (o: Order)
    ensures FixedPart(o) == f && LifecyclePart(o) == l
  {
    Order(f.orderId, f.tokenIn, f.tokenOut, f.amount, f.slippage, l.status, l.selectedDex,
          l.executedPrice, l.txHash, l.error, f.createdAt, l.updatedAt)
  }

  /** An order is exactly its two groups of columns. */
  lemma SplitJoin(o: Order)
    ensures Assemble(FixedPart(o), LifecyclePart(o)) == o
  {
  }

  /** `saveOrder`: insert all twelve columns for a new id; for an existing id
      keep the fixed columns and take every lifecycle column from `o`, so an
      absent optional field of `o` clears the stored one. */
  function SaveOrder(s: Store, o: Order): (s': Store)
    ensures s'.Keys == s.Keys + {o.orderId}
    ensures forall id :: id in s && id != o.orderId ==> s'[id] == s[id]
    ensures o.orderId !in s ==> s'[o.orderId] == o
    ensures o.orderId in s ==>
      && FixedPart(s'[o.orderId]) == FixedPart(s[o.orderId])
      && LifecyclePart(s'[o.orderId]) == LifecyclePart(o)
    ensures WellKeyed(s) ==> WellKeyed(s')
  {
    var id := o.orderId;
    if id in s then
      s[id := Assemble(FixedPart(s[id]), LifecyclePart(o))]
    else
      s[id := o]
  }

  /** `getOrder`: the stored row, or null for an unknown id. A NULL
      `executed_price` is read back as undefined, which is the same absent
      value here. */
  function GetOrder(s: Store, id: string): (r: Option<Order>)
    ensures r.Some? <==> id in s
    ensures r.Some? ==> r.value == s[id]
  {
    if id in s then Some(s[id]) else None
  }

  /** Saving the same order twice is the same as saving it once. */
  lemma SaveIdempotent(s: Store, o: Order)
    ensures SaveOrder(SaveOrder(s, o), o) == SaveOrder(s, o)
  {
    var s1 := SaveOrder(s, o);
    var id := o.orderId;
    SplitJoin(o);
    assert Assemble(FixedPart(s1[id]), LifecyclePart(o)) == s1[id];
  }

  /** Last write wins: of two saves for one id, the second decides every
      lifecycle column whatever status the first wrote, and the fixed columns
      stay those of the first insert. */
  lemma LastWriteWins(s: Store, first: Order, second: Order)
    requires first.orderId == second.orderId
    ensures
      var row := SaveOrder(SaveOrder(s, first), second)[first.orderId];
      var origin := if first.orderId in s then s[first.orderId] else first;
      LifecyclePart(row) == LifecyclePart(second) && FixedPart(row) == FixedPart(origin)
  {
  }

  /** Reading back a save whose fixed columns agree with the stored row (or
      that inserts a new row) returns exactly the saved order. */
  lemma SaveThenGet(s: Store, o: Order)
    requires o.orderId in s ==> FixedPart(s[o.orderId]) == FixedPart(o)
    ensures GetOrder(SaveOrder(s, o), o.orderId) == Some(o)
  {
    SplitJoin(o);
  }
}
