/** The `Pool` class: the live-connection counter and idle set that the
    connection factory keeps, the log of `releaseConnection` calls, and
    the close listeners `queryStream` leaves on the streams it opens.
    Acquisition (`getConnection`) is an input outcome; `releaseConnection`
    is an action that appends to the release log. */
module Pools {
  import opened Async
  import opened Client
  import opened Reactor
  import opened Operations

  class Pool {
    /** `currentConnections`: connections made by the factory and not yet closed. */
    var currentConnections: int
    /** `$this->pool`: the idle connections, keyed by identity. */
    var idle: set<Connection>
    /** Every connection handed to `releaseConnection`, in order. */
    var released: seq<Connection>
    /** Connections whose result stream still carries the close listener
        that will release them. */
    var streamListeners: multiset<Connection>
    /** The connections the factory made whose `close` has not fired. */
    ghost var live: set<Connection>

    ghost predicate Valid()
      reads this
    {
      currentConnections == |live| && idle <= live
    }

    constructor ()
      ensures Valid()
      ensures currentConnections == 0 && idle == {} && live == {}
      ensures released == [] && streamListeners == multiset{}
    {
      currentConnections := 0;
      idle := {};
      released := [];
      streamListeners := multiset{};
      live := {};
    }

    /** `createConnection`: a new connection, counted at once. */
    method CreateConnection() returns (c: Connection)
      requires Valid()
      modifies this`currentConnections, this`live
      ensures Valid() && fresh(c)
      ensures currentConnections == old(currentConnections) + 1
      ensures live == old(live) + {c}
    {
      c := new Connection();
      live := live + {c};
      currentConnections := currentConnections + 1;
    }

    /** The `close` listener `createConnection` attaches to `c`: it drops
        `c` from the idle set if it is there and uncounts it. */
    method ConnectionClosed(c: Connection)
      requires Valid() && c in live
      modifies this`currentConnections, this`idle, this`live
      ensures Valid()
      ensures idle == old(idle) - {c}
      ensures currentConnections == old(currentConnections) - 1
      ensures live == old(live) - {c}
    {
      if c in idle {
        idle := idle - {c};
      }
      currentConnections := currentConnections - 1;
      live := live - {c};
    }

    /** Stand-in for the pool primitive parking a live connection as idle. */
    method ParkIdle(c: Connection)
      requires Valid() && c in live
      modifies this`idle
      ensures Valid()
      ensures idle == old(idle) + {c}
    {
      idle := idle + {c};
    }

    /** `releaseConnection`: the pool takes `c` back. */
    method ReleaseConnection(c: Connection)
      modifies this`released
      ensures released == old(released) + [c]
    {
      released := released + [c];
    }

    /** `query`: the caller's outcome and the releases are those of `QueryChain`.
        The body takes the same branches as that function, and is proved against it. */
    method Query(acquire: Outcome<Connection>, statement: Outcome<Value>) returns (r: Outcome<Value>)
      modifies this`released
      ensures r == QueryChain(acquire, statement).outcome
      ensures released == old(released) + QueryChain(acquire, statement).releases
    {
      match acquire
      case Rejected(e) =>
        r := Rejected(e);
      case Fulfilled(c) =>
        match statement {
          case Fulfilled(result) =>
            ReleaseConnection(c);
            r := Fulfilled(result);
          case Rejected(error) =>
            ReleaseConnection(c);
            r := Rejected(error);
        }
    }

    /** `transaction`: the caller's outcome and the releases are those of `TransactionChain`.
        The body takes the same branches as that function, and is proved against it. */
    method Transaction(acquire: Outcome<Connection>, begin: Outcome<Value>, body: Outcome<Value>,
                       commit: Outcome<Value>, rollback: Outcome<Value>) returns (r: Outcome<Value>)
      modifies this`released
      ensures r == TransactionChain(acquire, begin, body, commit, rollback).outcome
      ensures released == old(released) + TransactionChain(acquire, begin, body, commit, rollback).releases
    {
      match acquire
      case Rejected(e) =>
        r := Rejected(e);
      case Fulfilled(c) =>
        var afterBody := BeginThenCallable(begin, body);
        match afterBody {
          case Fulfilled(result) =>
            if commit.Fulfilled? {
              ReleaseConnection(c);
              r := Fulfilled(result);
            } else {
              r := Rejected(commit.error);
            }
          case Rejected(error) =>
            if rollback.Fulfilled? {
              ReleaseConnection(c);
              r := Rejected(error);
            } else {
              r := Rejected(rollback.error);
            }
        }
    }

    /** One call of `query` or `transaction`. */
    method Run(op: Operation) returns (r: Outcome<Value>)
      modifies this`released
      ensures r == Execute(op).outcome
      ensures released == old(released) + Execute(op).releases
    {
      match op
      case QueryOp(acquire, statement) =>
        r := Query(acquire, statement);
      case TransactionOp(acquire, begin, body, commit, rollback) =>
        r := Transaction(acquire, begin, body, commit, rollback);
    }

    /** Runs `query` and `transaction` calls one after another, each
        against its own acquisition outcome: the release log grows by
        exactly `ReleaseLog(ops)`, so every acquisition is matched by a
        release except for the stranded transactions. */
    method RunSequentially(ops: seq<Operation>) returns (outcomes: seq<Outcome<Value>>)
      modifies this`released
      ensures outcomes == Outcomes(ops)
      ensures forall k :: 0 <= k < |ops| ==> outcomes[k] == Execute(ops[k]).outcome
      ensures released == old(released) + ReleaseLog(ops)
      ensures |released| - |old(released)| + StrandedCount(ops) == Acquisitions(ops)
    {
      outcomes := [];
      var i := 0;
      while i < |ops|
        invariant 0 <= i <= |ops|
        invariant |outcomes| == i
        invariant outcomes == Outcomes(ops[..i])
        invariant released == old(released) + ReleaseLog(ops[..i])
      {
        var r := Run(ops[i]);
        ReleaseLogPrefix(ops, i);
        OutcomesPrefix(ops, i);
        outcomes := outcomes + [r];
        i := i + 1;
      }
      assert ops[..i] == ops;
      forall k | 0 <= k < |ops|
        ensures outcomes[k] == Execute(ops[k]).outcome
      {
        OutcomesAt(ops, k);
      }
      ReleaseAccounting(ops);
    }

    /** The fulfilment handler of `queryStream` after `$connection->queryStream(...)`
        returned: the close listener that will release `c` is left on the stream. */
    method OpenStream(c: Connection)
      modifies this`streamListeners
      ensures streamListeners == old(streamListeners) + multiset{c}
    {
      streamListeners := streamListeners + multiset{c};
    }

    /** `queryStream` up to its return. `open` is how opening the stream
        on the acquired connection goes; `settledInCall` says whether
        acquisition had settled before the `if ($error)` test, in which
        case the chained handlers have already run. The event loop,
        global in the source, is a parameter. */
    method QueryStream(acquire: Outcome<Connection>, open: Outcome<()>, settledInCall: bool, loop: Loop)
      returns (handle: StreamHandle)
      modifies this`streamListeners, loop`queue
      // a failure already absorbed: a fresh stand-in stream that has received
      // nothing yet, with the report of the failure queued for a later tick
      ensures settledInCall && StreamChain(acquire, open).error.Some? ==>
        && handle.Substitute? && fresh(handle.stream) && handle.stream.Valid()
        && handle.stream.emitted == [] && !handle.stream.closed
        && loop.queue == old(loop.queue) + [ReportError(handle.stream, StreamChain(acquire, open).error.value)]
      // a stream already open: `$p` is unwrapped as it settled, nothing is queued
      ensures settledInCall && StreamChain(acquire, open).error.None? ==>
        handle == Unwrapped(Settled(StreamChain(acquire, open).settlement)) && loop.queue == old(loop.queue)
      // a close listener exactly on the stream that was opened
      ensures settledInCall ==>
        streamListeners == old(streamListeners) + ListenerOn(StreamChain(acquire, open).listener)
      // acquisition still pending: `$p` is unwrapped as it is, nothing else happens
      ensures !settledInCall ==>
        handle == Unwrapped(Pending) && streamListeners == old(streamListeners) && loop.queue == old(loop.queue)
    {
      var error: Option<Error> := None;
      var p: Promised<Option<Connection>> := Pending;
      if settledInCall {
        match acquire
        case Fulfilled(c) =>
          match open {
            case Fulfilled(_) =>
              OpenStream(c);
              p := Settled(Fulfilled(Some(c)));
            case Rejected(e) =>
              error := Some(e);
              p := Settled(Fulfilled(None));
          }
        case Rejected(e) =>
          error := Some(e);
          p := Settled(Fulfilled(None));
      }
      if error.Some? {
        var stream := new ThroughStream();
        loop.FutureTick(ReportError(stream, error.value));
        handle := Substitute(stream);
      } else {
        handle := Unwrapped(p);
      }
    }

    /** The handlers of `queryStream` when acquisition settles after the
        call has returned: `$p` settles as `StreamChain` says, and a close
        listener is left only on a stream that opened. */
    method StreamAcquisitionSettled(acquire: Outcome<Connection>, open: Outcome<()>)
      returns (p: Outcome<Option<Connection>>)
      modifies this`streamListeners
      ensures p == StreamChain(acquire, open).settlement
      ensures streamListeners == old(streamListeners) + ListenerOn(StreamChain(acquire, open).listener)
    {
      match acquire
      case Fulfilled(c) =>
        match open {
          case Fulfilled(_) =>
            OpenStream(c);
            p := Fulfilled(Some(c));
          case Rejected(e) =>
            // `$error` is written here, but nothing reads it any more
            p := Fulfilled(None);
        }
      case Rejected(e) =>
        p := Fulfilled(None);
    }

    /** The close listener of a stream opened on `c`: `c` is released,
        and the listener is spent. */
    method StreamClosed(c: Connection)
      requires c in streamListeners
      modifies this`released, this`streamListeners
      ensures released == old(released) + [c]
      ensures streamListeners == old(streamListeners) - multiset{c}
    {
      ReleaseConnection(c);
      streamListeners := streamListeners - multiset{c};
    }
  }

  /** The close listeners a `StreamChain` run leaves behind. */
  function ListenerOn(listener: Option<Connection>): multiset<Connection> {
    match listener
    case Some(c) => multiset{c}
    case None => multiset{}
  }

  /** An acquisition that has already failed when `queryStream` tests
      `$error`: the caller's stream hears nothing during the call. The
      callbacks queued before it run first, each reporting on its own
      stream; then the stream hears exactly one error with the acquisition
      error, then close. Opening a stream never happens on this path. */
  method EarlyAcquisitionFailure(pool: Pool, loop: Loop, e: Error)
    returns (stream: ThroughStream, duringCall: seq<StreamEvent>)
    requires forall j :: 0 <= j < |loop.queue| ==> loop.queue[j].stream.Valid()
    requires forall i, j :: 0 <= i < j < |loop.queue| ==> loop.queue[i].stream != loop.queue[j].stream
    modifies pool`streamListeners, loop`queue, set j | 0 <= j < |loop.queue| :: loop.queue[j].stream
    ensures duringCall == []
    ensures stream.emitted == duringCall + [ErrorEvent(e), CloseEvent] && stream.closed
    ensures forall j :: 0 <= j < |old(loop.queue)| ==>
      Reported(old(loop.queue)[j], old(loop.queue[j].stream.emitted), old(loop.queue[j].stream.closed))
    ensures loop.queue == [] && pool.streamListeners == old(pool.streamListeners)
  {
    var earlier := |loop.queue|;
    ghost var queued := loop.queue;
    var handle := pool.QueryStream(Rejected(e), Fulfilled(()), true, loop);
    stream := handle.stream;
    assert loop.queue == queued + [ReportError(stream, e)] && loop.queue[..earlier] == queued;
    duringCall := stream.emitted;
    loop.RunTicks(earlier);
    loop.RunTick();
  }
}
