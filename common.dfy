/** Shared vocabulary of the gateway model: an optional value and the identifier types. */
module Common {

  /** A value that may be absent (JavaScript `undefined` or `null`). */
  datatype Option<+T> = None | Some(value: T)

  /** A trading symbol such as "BTC/USD". */
  type Symbol = string

  /** The identifier a connection is registered under (a uuid in the server). */
  type ClientId = string

  /** The identifier the server allocates for each PLACE_ORDER request. */
  type OrderId = string

  /** Identity of one transport connection, the `ws` object of the server. */
  type SocketId = nat
}
