/** The two pieces of the event-driven runtime that `queryStream` uses
    directly: a through stream and the event loop's future-tick queue. */
module Reactor {
  import opened Async

  /** An event received by a stream's listeners. */
  datatype StreamEvent = ErrorEvent(error: Error) | CloseEvent

  /** A readable stream, reduced to the events its listeners have received.
      `Close` emits `close` once and then detaches every listener, so
      nothing emitted after it reaches anyone. */
  class ThroughStream {
    var emitted: seq<StreamEvent>
    var closed: bool

    /** Close is emitted at most once, is the last event, and marks the stream closed. */
    ghost predicate Valid()
      reads this
    {
      && (closed <==> CloseEvent in emitted)
      && (closed ==> emitted[|emitted| - 1] == CloseEvent)
      && multiset(emitted)[CloseEvent] <= 1
    }

    constructor ()
      ensures Valid() && emitted == [] && !closed
    {
      emitted := [];
      closed := false;
    }

    /** `emit('error', ...)`: heard only while the stream is open. */
    method EmitError(e: Error)
      requires Valid()
      modifies this
      ensures Valid() && closed == old(closed)
      ensures emitted == old(emitted) + (if old(closed) then [] else [ErrorEvent(e)])
    {
      if !closed {
        emitted := emitted + [ErrorEvent(e)];
      }
    }

    /** `close()`: the first call emits `close`, later calls do nothing. */
    method Close()
      requires Valid()
      modifies this
      ensures Valid() && closed
      ensures emitted == old(emitted) + (if old(closed) then [] else [CloseEvent])
    {
      if !closed {
        emitted := emitted + [CloseEvent];
        closed := true;
      }
    }
  }

  /** A callback queued with `Loop::futureTick`. The only one the pool
      queues reports an error on a stand-in stream and closes it. */
  datatype Deferred = ReportError(stream: ThroughStream, error: Error)

  /** `d`'s callback has run on its stream, which had heard `before` and
      was closed iff `wasClosed`: an open stream heard the error and then
      close, and the stream is closed now. */
  ghost predicate Reported(d: Deferred, before: seq<StreamEvent>, wasClosed: bool)
    reads d.stream
  {
    && d.stream.Valid() && d.stream.closed
    && d.stream.emitted == before + (if wasClosed then [] else [ErrorEvent(d.error), CloseEvent])
  }

  /** The event loop's queue of callbacks for its next ticks. */
  class Loop {
    var queue: seq<Deferred>

    constructor ()
      ensures queue == []
    {
      queue := [];
    }

    /** `Loop::futureTick`: the callback runs on a later tick, never now. */
    method FutureTick(d: Deferred)
      modifies this`queue
      ensures queue == old(queue) + [d]
    {
      queue := queue + [d];
    }

    /** A later tick runs the oldest queued callback: the error, then close. */
    method RunTick()
      requires queue != [] && queue[0].stream.Valid()
      modifies this`queue, queue[0].stream
      ensures queue == old(queue)[1..]
      ensures var s := old(queue)[0].stream;
        s.Valid() && s.closed &&
        s.emitted == old(s.emitted) + (if old(s.closed) then [] else [ErrorEvent(old(queue)[0].error), CloseEvent])
    {
      var d := queue[0];
      queue := queue[1..];
      d.stream.EmitError(d.error);
      d.stream.Close();
    }

    /** The `n` oldest queued callbacks run, one tick each, in order: the
        stream of each hears its own error and then close if it was open,
        and ends closed; no other stream is touched. Every callback has a
        stream of its own, as every stand-in stream is new. */
    method RunTicks(n: nat)
      requires n <= |queue|
      requires forall j :: 0 <= j < n ==> queue[j].stream.Valid()
      requires forall i, j :: 0 <= i < j < n ==> queue[i].stream != queue[j].stream
      modifies this`queue, set j | 0 <= j < n :: queue[j].stream
      ensures queue == old(queue)[n..]
      ensures forall j {:trigger Reported(old(queue)[j], old(queue[j].stream.emitted), old(queue[j].stream.closed))} ::
        0 <= j < n ==> Reported(old(queue)[j], old(queue[j].stream.emitted), old(queue[j].stream.closed))
      decreases n
    {
      if n > 0 {
        ghost var q := queue;
        RunTick();
        assert queue == q[1..];
        assert Reported(q[0], old(q[0].stream.emitted), old(q[0].stream.closed));
        label rest:
        RunTicks(n - 1);
        forall j | 0 <= j < n
          ensures Reported(q[j], old(q[j].stream.emitted), old(q[j].stream.closed))
        {
          if j > 0 {
            var s := q[j].stream;
            assert old@rest(queue)[j - 1] == q[j] && s != q[0].stream;
            assert old@rest(s.emitted) == old(s.emitted) && old@rest(s.closed) == old(s.closed);
            assert Reported(old@rest(queue)[j - 1], old@rest(queue[j - 1].stream.emitted),
                            old@rest(queue[j - 1].stream.closed));
          }
        }
      }
    }
  }
}
