/** Promise settlements as the pool's promise chains see them.
    Every external call of the pool (acquiring a connection, a statement
    on the connection, the caller's callable) is reduced to the value it
    settles with. */
module Async {

  /** A PHP value carried by a fulfilled promise: a query result or the
      value the transaction callable returned. Only its identity matters. */
  datatype Value = Value(id: nat)

  /** A thrown or rejected error object. Only its identity matters: the
      pool either passes the very same object on or replaces it. */
  datatype Error = Error(id: nat)

  /** How a promise settled. */
  datatype Outcome<+T> = Fulfilled(value: T) | Rejected(error: Error)

  /** PHP's nullable value. */
  datatype Option<+T> = None | Some(value: T)

  /** A promise seen at one instant: still pending, or settled. */
  datatype Promised<+T> = Pending | Settled(outcome: Outcome<T>)
}
