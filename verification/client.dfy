/** What the pool sees of the MySQL client: connections as bare
    identities and the calls it makes while it holds one. */
module Client {

  /** A lazy MySQL connection. The pool keys its idle set by object
      identity, so a connection is an object with no state of its own. */
  class Connection {
    constructor () {}
  }

  /** One step taken while a connection is borrowed, in issue order. */
  datatype Step =
    | RunStatement    // the caller's statement, `query($sql, $params)`
    | Begin           // `query('BEGIN')`
    | InvokeCallable  // the caller's transaction callable
    | Commit          // `query('COMMIT')`
    | Rollback        // `query('ROLLBACK')`
}
