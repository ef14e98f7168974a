/** The promise chains of `query`, `transaction` and `queryStream`, as
    functions from the settlements of the external calls to what the
    caller sees, which steps were taken on the borrowed connection, and
    which connections were handed back through `releaseConnection`. */
module Operations {
  import opened Async
  import opened Client
  import opened Reactor

  /** One run of a chain against one connection. */
  datatype Run = Run(outcome: Outcome<Value>, steps: seq<Step>, releases: seq<Connection>)

  /** The release discipline the pool is meant to keep: an acquired
      connection goes back exactly once, and nothing goes back when
      acquisition failed. */
  predicate ReleaseDiscipline(acquire: Outcome<Connection>, run: Run) {
    match acquire
    case Fulfilled(c) => run.releases == [c]
    case Rejected(_) => run.releases == []
  }

  // ---------------------------------------------------------------- query

  /** `getConnection()->then(...)`: the statement's two handlers both
      release the connection; the fulfilment-only outer `then` lets an
      acquisition error through untouched. */
  function QueryChain(acquire: Outcome<Connection>, statement: Outcome<Value>): (run: Run)
    ensures ReleaseDiscipline(acquire, run)
    ensures acquire.Rejected? ==> run.outcome == Rejected(acquire.error) && run.steps == []
    ensures acquire.Fulfilled? ==> run.outcome == statement && run.steps == [RunStatement]
  {
    match acquire
    case Rejected(e) => Run(Rejected(e), [], [])
    case Fulfilled(c) =>
      match statement
      case Fulfilled(result) => Run(Fulfilled(result), [RunStatement], [c])
      case Rejected(error) => Run(Rejected(error), [RunStatement], [c])
  }

  // ---------------------------------------------------------- transaction

  /** BEGIN and the callable both succeeded, so COMMIT is the closing statement. */
  predicate WorkSucceeded(begin: Outcome<Value>, body: Outcome<Value>) {
    begin.Fulfilled? && body.Fulfilled?
  }

  /** The settlement of whichever closing statement (COMMIT or ROLLBACK) runs. */
  function ClosingOutcome(begin: Outcome<Value>, body: Outcome<Value>,
                          commit: Outcome<Value>, rollback: Outcome<Value>): Outcome<Value>
  {
    if WorkSucceeded(begin, body) then commit else rollback
  }

  /** The promise `query('BEGIN')->then(callable)`: BEGIN's rejection
      passes through, otherwise the callable's outcome. */
  function BeginThenCallable(begin: Outcome<Value>, body: Outcome<Value>): (r: Outcome<Value>)
    ensures r.Fulfilled? <==> WorkSucceeded(begin, body)
    ensures r.Fulfilled? ==> r.value == body.value
    ensures r.Rejected? ==> r.error == (if begin.Rejected? then begin.error else body.error)
  {
    match begin
    case Rejected(e) => Rejected(e)
    case Fulfilled(_) => body
  }

  /** The steps taken on the connection: BEGIN, the callable only after a
      successful BEGIN, and one closing statement chosen by how they went. */
  function TransactionSteps(begin: Outcome<Value>, body: Outcome<Value>): (steps: seq<Step>)
    ensures 2 <= |steps| && steps[0] == Begin
    ensures InvokeCallable in steps <==> begin.Fulfilled?
    ensures steps[|steps| - 1] == (if WorkSucceeded(begin, body) then Commit else Rollback)
    ensures multiset(steps)[Commit] + multiset(steps)[Rollback] == 1
  {
    var closing := if WorkSucceeded(begin, body) then Commit else Rollback;
    if begin.Fulfilled? then [Begin, InvokeCallable, closing] else [Begin, closing]
  }

  /** The transaction chain. Both handlers of the `then` that follows the
      callable are attached to the BEGIN chain, so a failed BEGIN is also
      rolled back; the COMMIT and ROLLBACK promises get a fulfilment
      handler only, so their failure skips `releaseConnection`. */
  function TransactionChain(acquire: Outcome<Connection>, begin: Outcome<Value>, body: Outcome<Value>,
                            commit: Outcome<Value>, rollback: Outcome<Value>): (run: Run)
    // nothing is issued, released or altered when acquisition fails
    ensures acquire.Rejected? ==> run.outcome == Rejected(acquire.error) && run.steps == [] && run.releases == []
    // BEGIN comes first; the callable runs only after a successful BEGIN
    ensures acquire.Fulfilled? ==> 2 <= |run.steps| && run.steps[0] == Begin
    ensures acquire.Fulfilled? ==> (InvokeCallable in run.steps <==> begin.Fulfilled?)
    // exactly one closing statement, issued last: COMMIT after success, ROLLBACK after any failure
    ensures acquire.Fulfilled? ==>
      run.steps[|run.steps| - 1] == (if WorkSucceeded(begin, body) then Commit else Rollback)
    ensures acquire.Fulfilled? ==> multiset(run.steps)[Commit] + multiset(run.steps)[Rollback] == 1
    // the connection is never released twice nor is a foreign one released;
    // an acquired connection is released exactly when the closing statement succeeds
    ensures run.releases == [] || ReleaseDiscipline(acquire, run)
    ensures acquire.Fulfilled? ==>
      (run.releases == [acquire.value] <==> ClosingOutcome(begin, body, commit, rollback).Fulfilled?)
    // the caller sees a value only when every step succeeded, and then the callable's value
    ensures run.outcome.Fulfilled? <==> acquire.Fulfilled? && WorkSucceeded(begin, body) && commit.Fulfilled?
    ensures run.outcome.Fulfilled? ==> run.outcome.value == body.value
  {
    match acquire
    case Rejected(e) => Run(Rejected(e), [], [])
    case Fulfilled(c) =>
      var steps := TransactionSteps(begin, body);
      match BeginThenCallable(begin, body)
      case Fulfilled(result) =>
        if commit.Fulfilled? then Run(Fulfilled(result), steps, [c])
        else Run(Rejected(commit.error), steps, [])
      case Rejected(error) =>
        if rollback.Fulfilled? then Run(Rejected(error), steps, [c])
        else Run(Rejected(rollback.error), steps, [])
  }

  /** BEGIN, callable and COMMIT succeed: one release, the callable's value. */
  lemma TransactionHappyPath(c: Connection, begin: Outcome<Value>, v: Value, commit: Outcome<Value>,
                             rollback: Outcome<Value>)
    requires begin.Fulfilled? && commit.Fulfilled?
    ensures var run := TransactionChain(Fulfilled(c), begin, Fulfilled(v), commit, rollback);
      run.outcome == Fulfilled(v) && run.releases == [c] && run.steps == [Begin, InvokeCallable, Commit]
  {
  }

  /** The callable fails with `e` and ROLLBACK succeeds: one release, and
      the caller is rejected with `e` itself. */
  lemma TransactionRollbackKeepsError(c: Connection, begin: Outcome<Value>, e: Error,
                                      commit: Outcome<Value>, rollback: Outcome<Value>)
    requires begin.Fulfilled? && rollback.Fulfilled?
    ensures var run := TransactionChain(Fulfilled(c), begin, Rejected(e), commit, rollback);
      run.outcome == Rejected(e) && run.releases == [c] && run.steps == [Begin, InvokeCallable, Rollback]
  {
  }

  /** A failed BEGIN still issues ROLLBACK, never runs the callable, and
      after a successful ROLLBACK rethrows the BEGIN error after one release. */
  lemma TransactionBeginFailureRollsBack(c: Connection, e: Error, body: Outcome<Value>,
                                         commit: Outcome<Value>, rollback: Outcome<Value>)
    ensures var run := TransactionChain(Fulfilled(c), Rejected(e), body, commit, rollback);
      run.steps == [Begin, Rollback] &&
      (rollback.Fulfilled? ==> run.outcome == Rejected(e) && run.releases == [c])
  {
  }

  /** A failed COMMIT is what the caller sees, and the connection is not released. */
  lemma TransactionCommitFailureStrands(c: Connection, begin: Outcome<Value>, body: Outcome<Value>,
                                        e: Error, rollback: Outcome<Value>)
    requires WorkSucceeded(begin, body)
    ensures var run := TransactionChain(Fulfilled(c), begin, body, Rejected(e), rollback);
      run.outcome == Rejected(e) && run.releases == [] && Rollback !in run.steps
  {
  }

  /** A failed ROLLBACK replaces the original error (from BEGIN or the
      callable), and the connection is not released. */
  lemma TransactionRollbackFailureReplacesError(c: Connection, begin: Outcome<Value>, body: Outcome<Value>,
                                                commit: Outcome<Value>, e: Error)
    requires !WorkSucceeded(begin, body)
    ensures var run := TransactionChain(Fulfilled(c), begin, body, commit, Rejected(e));
      run.outcome == Rejected(e) && run.releases == []
  {
  }

  // ---------------------------------------------------------- queryStream

  /** The run of `queryStream`'s two chained handlers. `open` is how
      `$connection->queryStream(...)` went: it returns the result stream,
      or throws. The handler at the end of the chain absorbs every
      rejection, acquisition's or opening's, by storing it in `$error`.
      `listener` is the connection whose stream carries the close
      listener that will release it. */
  datatype StreamRun = StreamRun(settlement: Outcome<Option<Connection>>, error: Option<Error>,
                                 listener: Option<Connection>)

  /** What `$p` settles with (the stream opened on a connection, written
      `Some(c)`, or `null`), what lands in `$error`, and which connection
      a close listener will release. `$p` is never rejected. */
  function StreamChain(acquire: Outcome<Connection>, open: Outcome<()>): (run: StreamRun)
    ensures run.settlement.Fulfilled?
    // `$p` is null exactly when acquisition or opening failed, and then `$error` holds that failure
    ensures run.settlement.value.None? <==> acquire.Rejected? || open.Rejected?
    ensures run.error.Some? <==> run.settlement.value.None?
    ensures run.error.Some? ==> run.error.value == (if acquire.Rejected? then acquire.error else open.error)
    // otherwise `$p` holds the stream on the acquired connection, and only that stream releases it
    ensures run.settlement.value.Some? ==> acquire.Fulfilled? && run.settlement.value.value == acquire.value
    ensures run.listener == run.settlement.value
  {
    match acquire
    case Rejected(e) => StreamRun(Fulfilled(None), Some(e), None)
    case Fulfilled(c) =>
      match open
      case Fulfilled(_) => StreamRun(Fulfilled(Some(c)), None, Some(c))
      case Rejected(e) => StreamRun(Fulfilled(None), Some(e), None)
  }

  /** Opening the stream fails after a successful acquisition: the error
      lands in `$error`, `$p` is null, and no listener will ever release
      the acquired connection. */
  lemma StreamOpenFailureStrands(c: Connection, e: Error)
    ensures var run := StreamChain(Fulfilled(c), Rejected(e));
      run.settlement == Fulfilled(None) && run.error == Some(e) && run.listener == None
  {
  }

  /** The stream handle `queryStream` returns. */
  datatype StreamHandle =
    | Substitute(stream: ThroughStream)
      // a fresh ThroughStream whose error is reported from a future tick
    | Unwrapped(source: Promised<Option<Connection>>)
      // `unwrapReadable($p)`, with `$p` as it stood when the call returned

  // ------------------------------------------- accounting over many calls

  /** One call of `query` or `transaction`, given by the settlements of
      its external calls. */
  datatype Operation =
    | QueryOp(acquire: Outcome<Connection>, statement: Outcome<Value>)
    | TransactionOp(acquire: Outcome<Connection>, begin: Outcome<Value>, body: Outcome<Value>,
                    commit: Outcome<Value>, rollback: Outcome<Value>)

  function Execute(op: Operation): Run {
    match op
    case QueryOp(acquire, statement) => QueryChain(acquire, statement)
    case TransactionOp(acquire, begin, body, commit, rollback) =>
      TransactionChain(acquire, begin, body, commit, rollback)
  }

  /** A transaction that borrowed a connection and then lost it: its
      COMMIT or ROLLBACK failed, so `releaseConnection` never ran. */
  predicate Stranded(op: Operation) {
    op.TransactionOp? && op.acquire.Fulfilled? &&
    ClosingOutcome(op.begin, op.body, op.commit, op.rollback).Rejected?
  }

  function Acquisitions(ops: seq<Operation>): nat {
    if ops == [] then 0 else (if ops[0].acquire.Fulfilled? then 1 else 0) + Acquisitions(ops[1..])
  }

  function StrandedCount(ops: seq<Operation>): nat {
    if ops == [] then 0 else (if Stranded(ops[0]) then 1 else 0) + StrandedCount(ops[1..])
  }

  /** The calls `releaseConnection` receives, in order, when the operations run one after another. */
  function ReleaseLog(ops: seq<Operation>): seq<Connection> {
    if ops == [] then [] else Execute(ops[0]).releases + ReleaseLog(ops[1..])
  }

  /** What the callers see, in order, when the operations run one after another. */
  function Outcomes(ops: seq<Operation>): (rs: seq<Outcome<Value>>)
    ensures |rs| == |ops|
  {
    if ops == [] then [] else [Execute(ops[0]).outcome] + Outcomes(ops[1..])
  }

  /** The `k`th caller sees the outcome of the `k`th chain. */
  lemma {:induction false} OutcomesAt(ops: seq<Operation>, k: nat)
    requires k < |ops|
    ensures Outcomes(ops)[k] == Execute(ops[k]).outcome
  {
    if k > 0 {
      OutcomesAt(ops[1..], k - 1);
    }
  }

  /** The outcomes of the first `i + 1` operations extend those of the first `i`. */
  lemma {:induction false} OutcomesPrefix(ops: seq<Operation>, i: nat)
    requires i < |ops|
    ensures Outcomes(ops[..i + 1]) == Outcomes(ops[..i]) + [Execute(ops[i]).outcome]
  {
    if i > 0 {
      assert ops[..i + 1][1..] == ops[1..][..i];
      assert ops[..i][1..] == ops[1..][..i - 1];
      OutcomesPrefix(ops[1..], i - 1);
    }
  }

  /** Running one more operation extends the release log by its releases. */
  lemma {:induction false} ReleaseLogAppend(ops: seq<Operation>, op: Operation)
    ensures ReleaseLog(ops + [op]) == ReleaseLog(ops) + Execute(op).releases
  {
    if ops != [] {
      assert (ops + [op])[1..] == ops[1..] + [op];
      ReleaseLogAppend(ops[1..], op);
    }
  }

  /** The release log of the first `i + 1` operations extends that of the first `i`. */
  lemma ReleaseLogPrefix(ops: seq<Operation>, i: nat)
    requires i < |ops|
    ensures ReleaseLog(ops[..i + 1]) == ReleaseLog(ops[..i]) + Execute(ops[i]).releases
  {
    assert ops[..i + 1] == ops[..i] + [ops[i]];
    ReleaseLogAppend(ops[..i], ops[i]);
  }

  /** Every acquisition is matched by one release, except the stranded
      transactions, each of which keeps its connection out of the pool. */
  lemma {:induction false} ReleaseAccounting(ops: seq<Operation>)
    ensures |ReleaseLog(ops)| + StrandedCount(ops) == Acquisitions(ops)
  {
    if ops != [] {
      ReleaseAccounting(ops[1..]);
    }
  }

  /** No connection is released that its own operation did not acquire. */
  lemma {:induction false} ReleasedWereAcquired(ops: seq<Operation>, c: Connection)
    requires c in ReleaseLog(ops)
    ensures exists i :: 0 <= i < |ops| && ops[i].acquire == Fulfilled(c) && !Stranded(ops[i])
  {
    var head := Execute(ops[0]).releases;
    if c in head {
      assert ops[0].acquire == Fulfilled(c) && !Stranded(ops[0]);
    } else {
      ReleasedWereAcquired(ops[1..], c);
      var i :| 0 <= i < |ops[1..]| && ops[1..][i].acquire == Fulfilled(c) && !Stranded(ops[1..][i]);
      assert ops[i + 1] == ops[1..][i];
    }
  }
}
