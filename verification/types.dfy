/** The records exchanged by the engine's components (types/index.ts). */
module Types {
  import opened Wrappers

  /** Milliseconds since the epoch, as produced by `new Date()`. */
  type Time = int

  datatype OrderStatus = Pending | Routing | Building | Submitted | Confirmed | Failed

  datatype DexProvider = Raydium | Meteora

  /** The client's swap request. */
  datatype OrderRequest = OrderRequest(
    tokenIn: string,
    tokenOut: string,
    amount: real,
    slippage: real)

  /** An order: the request fields, the lifecycle fields and two timestamps. */
  datatype Order = Order(
    orderId: string,
    tokenIn: string,
    tokenOut: string,
    amount: real,
    slippage: real,
    status: OrderStatus,
    selectedDex: Option<DexProvider>,
    executedPrice: Option<real>,
    txHash: Option<string>,
    error: Option<string>,
    createdAt: Time,
    updatedAt: Time)

  /** The human-readable part of a lifecycle event. The confirmed message
      embeds a price printed with `toFixed(2)`; it is kept structured here
      (the price and the venue it is rendered from) rather than printed. */
  datatype StatusMessage =
    | Text(text: string)
    | ExecutedAt(price: Option<real>, via: Option<DexProvider>)

  /** The optional payload of a lifecycle event. */
  datatype MessageData = MessageData(
    txHash: Option<string>,
    executedPrice: Option<real>,
    selectedDex: Option<DexProvider>,
    error: Option<string>)

  /** A lifecycle event, as published to an order's channel. */
  datatype WebSocketMessage = WebSocketMessage(
    orderId: string,
    status: OrderStatus,
    message: StatusMessage,
    timestamp: Time,
    data: Option<MessageData>)

  /** A venue's answer to a quote request. */
  datatype DexQuote = DexQuote(provider: DexProvider, price: real, latency: int)
}
