# MySQL connection pool: promise chains and pool bookkeeping

A model of the `Pool` class of a ReactPHP MySQL connection pool
(`src/Pool.php`). The class borrows a connection from a generic pool
primitive, drives it through a fixed sequence of calls and decides when
the connection goes back and which value or error the caller sees:

- `query` runs one statement and releases the connection whether the
  statement succeeds or fails;
- `transaction` runs BEGIN, the caller's callable, then COMMIT on success
  or ROLLBACK on failure, and releases the connection only when the
  COMMIT or ROLLBACK succeeds;
- `queryStream` returns a stream at once; the connection is released when
  that stream closes, and an acquisition that had already failed is
  reported through a stand-in stream on a later event-loop tick;
- `createConnection` counts every connection it makes, and the `close`
  listener it attaches uncounts the connection and drops it from the idle
  set.

Every external call (acquisition, a statement, BEGIN, COMMIT, ROLLBACK,
opening a result stream, the callable) is an input: the `Outcome` it
settles with. The modules:

- `Async` (`async.dfy`): values, errors, promise outcomes.
- `Client` (`client.dfy`): connections as identities and the steps taken
  on a borrowed connection.
- `Reactor` (`reactor.dfy`): the through stream that stands in for a
  failed stream, reduced to the events its listeners receive, and the
  event loop's queue of future-tick callbacks.
- `Operations` (`operations.dfy`): the promise chains of `query`,
  `transaction` and `queryStream` as pure functions from input outcomes to
  the caller's outcome, the steps issued and the connections released,
  with the properties of each chain and an accounting of releases over
  any sequence of calls.
- `Pools` (`pool.dfy`): the `Pool` class with its live-connection
  counter, idle set, release log and stream close listeners. Its methods
  are proved against the functions of `Operations`.

Behaviour of the code that a caller may not expect, which the model
keeps and states as lemmas:

- a failed BEGIN is followed by ROLLBACK, and when that succeeds the
  connection is released and the BEGIN error rethrown;
- a failed COMMIT or ROLLBACK leaves the connection unreleased, and its
  error is what the caller sees; a failed ROLLBACK thus hides the error
  that caused it;
- in `queryStream`, a failure to acquire or to open the stream is stored
  in `$error` and `$p` fulfils with `null`; the stand-in stream reports
  it only when it had happened before the call returned, and a failure
  to open the stream leaves the acquired connection unreleased.

## Model

| member | source | states |
|---|---|---|
| Operations.QueryChain | src/Pool.php:26-37 | Acquisition failure reaches the caller unchanged with nothing issued or released; otherwise the connection is released exactly once and the statement's value or error passes through unchanged |
| Operations.BeginThenCallable | src/Pool.php:66-73 | The BEGIN-then-callable promise fulfils iff BEGIN and the callable both succeed, and then with the callable's value; otherwise it carries BEGIN's error, or the callable's when BEGIN succeeded |
| Operations.TransactionChain | src/Pool.php:63-86 | BEGIN first, callable only after a successful BEGIN, exactly one closing statement, issued last (COMMIT after success, ROLLBACK after any failure); no connection is released twice and none but the acquired one; after a successful acquisition the connection is released exactly when the closing statement succeeds, and after a failed one nothing is issued or released; the caller gets a value iff every step succeeded, and it is the callable's value |
| Operations.TransactionSteps | src/Pool.php:66-84 | The steps on the connection start with BEGIN, include the callable iff BEGIN succeeded, and end with exactly one closing statement: COMMIT after success, ROLLBACK after any failure |
| Operations.TransactionHappyPath | src/Pool.php:66-78 | BEGIN, callable and COMMIT succeed: one release and the callable's value |
| Operations.TransactionRollbackKeepsError | src/Pool.php:79-83 | Callable fails with e, ROLLBACK succeeds: one release and rejection with e itself |
| Operations.TransactionBeginFailureRollsBack | src/Pool.php:66-83 | A failed BEGIN skips the callable but still issues ROLLBACK; if ROLLBACK succeeds the connection is released and the BEGIN error rethrown |
| Operations.TransactionCommitFailureStrands | src/Pool.php:74-78 | A failed COMMIT is what the caller sees, ROLLBACK is not issued, and the connection is never released |
| Operations.TransactionRollbackFailureReplacesError | src/Pool.php:79-83 | A failed ROLLBACK is what the caller sees, replacing the BEGIN or callable error, and the connection is never released |
| Operations.StreamChain | src/Pool.php:42-50 | `$p` never rejects: it is null exactly when acquisition or opening the stream failed, and `$error` then holds that failure; otherwise it holds the stream on the acquired connection, and exactly that stream carries the releasing close listener |
| Operations.StreamOpenFailureStrands | src/Pool.php:42-50 | Opening the stream fails after acquisition: `$error` holds the opening error, `$p` is null, and no listener will release the acquired connection |
| Operations.OutcomesAt | src/Pool.php:26-86 | When calls run one after another, the k-th caller sees exactly the outcome of the k-th chain |
| Operations.ReleaseLogAppend | src/Pool.php:26-86 | Running one more call extends the release log by exactly that call's releases |
| Operations.ReleaseAccounting | src/Pool.php:26-86 | Over any sequence of query and transaction calls, releases plus transactions stranded by a failed COMMIT or ROLLBACK equal successful acquisitions |
| Operations.ReleasedWereAcquired | src/Pool.php:26-86 | Every connection released over a sequence of calls was acquired by a call that was not stranded |
| Pools.Pool.CreateConnection | src/Pool.php:12-24 | A fresh connection; the counter grows by exactly one and stays equal to the number of live connections |
| Pools.Pool.ConnectionClosed | src/Pool.php:16-21 | The close listener removes the connection from the idle set only, leaving other idle members, and lowers the counter by exactly one, keeping it equal to the number of live connections |
| Pools.Pool.Query | src/Pool.php:26-37 | The caller's outcome and the connections appended to the release log are those of `QueryChain` |
| Pools.Pool.Transaction | src/Pool.php:63-86 | The caller's outcome and the connections appended to the release log are those of `TransactionChain` |
| Pools.Pool.Run | src/Pool.php:26-86 | One `query` or `transaction` call returns its chain's outcome and appends exactly its chain's releases to the log |
| Pools.Pool.RunSequentially | src/Pool.php:26-86 | Calls run one after another: the k-th caller gets the outcome of the k-th chain, the release log grows by exactly `ReleaseLog`, and releases plus stranded transactions equal acquisitions |
| Pools.Pool.OpenStream | src/Pool.php:43-46 | Opening a stream on a connection leaves one close listener for it |
| Pools.Pool.QueryStream | src/Pool.php:39-62 | A failure absorbed before the `$error` test gives a fresh stand-in stream that has heard nothing, with the report of that failure queued for a later tick; a stream already open unwraps the settled `$p`; a close listener exists exactly on an opened stream; a pending acquisition unwraps the pending `$p` and changes nothing |
| Pools.Pool.StreamAcquisitionSettled | src/Pool.php:42-50 | An acquisition settling after the call settles `$p` as `StreamChain` says and leaves a close listener only on a stream that opened |
| Pools.Pool.StreamClosed | src/Pool.php:44-46 | Closing a stream releases its connection once and spends its listener |
| Pools.EarlyAcquisitionFailure | src/Pool.php:52-58 | An acquisition already failed: the returned stream hears nothing during the call; the callbacks queued before run first, so each earlier stand-in stream that was still open hears its own error and then close and every one ends closed; then the returned stream hears exactly one error carrying the acquisition error, then close |
| Reactor.ThroughStream.EmitError | src/Pool.php:55 | An error is heard only while the stream is open; close stays the last event, at most once |
| Reactor.ThroughStream.Close | src/Pool.php:56 | The first close emits `close` once and closes the stream; later ones emit nothing |
| Reactor.Loop.FutureTick | src/Pool.php:54 | The callback is queued for a later tick and does not run now |
| Reactor.Loop.RunTick | src/Pool.php:54-57 | The oldest queued callback runs: an open stand-in stream hears the error and then close, exactly once each |
| Reactor.Loop.RunTicks | src/Pool.php:54-57 | The n oldest queued callbacks run and leave the queue holding the rest; for each, a stream that was still open hears exactly its own error and then close, one already closed hears nothing more, and every one ends closed; no other stream changes |

## Left out

- The pool primitive's internals (`getConnection`, `releaseConnection`, size limit, waiter queue) are not part of this model: acquisition is an input outcome and release appends to a log. `ParkIdle` stands in for the primitive putting a live connection into the idle set.
- The MySQL client and the lazy-connection factory: statements, BEGIN, COMMIT and ROLLBACK are input outcomes; connections carry no state.
- Event-loop scheduling: the loop is reduced to its queue of future-tick callbacks, and the global `Loop` becomes a parameter; timers and I/O polling are not modelled.
- `ThroughStream` is reduced to the `error` and `close` events its listeners receive: data, writing, pausing and piping are not modelled.
- `React\Async\async`: the callable is reduced to the outcome it settles with; what it does with the connection is not modelled.
- `unwrapReadable`: how the unwrapped stream forwards data, or what it reports when `$p` fulfils with null after the call returned, is not modelled; the handle only records `$p`.
- Pools.Pool.ConnectionClosed: requires the connection to be live, relying on the client emitting `close` at most once per connection; a second `close` would lower the counter again.
- Reactor.Loop.RunTicks and Pools.EarlyAcquisitionFailure: require the queued callbacks to report on distinct streams; the pool queues a report only on a stand-in stream it has just created, so every stream it queues is new.
- Pools.Pool.StreamClosed: requires a registered listener, relying on a stream emitting `close` at most once.
- Concurrency: interleaving of operations on different connections is not modelled; each call runs alone against one connection.
- `queryStream` calls are not part of the release accounting over sequences of calls, since their release happens at a later stream close.
- The demo driver `examples/example.php` is I/O only and not part of this model.
