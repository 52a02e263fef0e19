/** The lifecycle shared by the chat and pubsub clients: the `Closed` flag, the
    current connection, the backoff counter and the reconnect decision.
    A client owns its `BaseClient`. The owner runs its own hooks around these
    steps, in the order the source's overrides do. The notifications the
    connection raises while a step runs are handled by the owner, synchronously,
    right after that step, through `ConnectionDisposing`.
    The reconnect task is a counted pending task. `RunReconnectTask` runs its
    body once the environment lets it run: the random jitter and whether the
    client's cancellation token fired during the wait are its parameters. */
module Client {
  import opened Wrappers
  import opened Errors
  import opened Backoff
  import opened Transport

  /** The jitter added to each reconnect wait lies in [50, 750) milliseconds. */
  const MinJitterMs: int := 50
  const MaxJitterMs: int := 750

  /** The client-level notifications, in the order they are raised. */
  datatype ClientEvent =
    | Connected
    | ConnectionClosed(reason: Option<Fault>)
    | ReconnectWait(waitMs: int)
    | MessageProcessingException(message: string)

  /** What the base client keeps, as a value (the backoff is left out). */
  datatype CoreView<M> = CoreView(
    connection: WsConnection?<M>, closed: bool, events: seq<ClientEvent>, pendingReconnects: nat)

  /** The base disposal handler's effect: a reconnect task is scheduled exactly
      when the client is not closed, and `ConnectionClosed` is raised either way. */
  function AfterDisposing<M>(v: CoreView<M>, reason: Option<Fault>): (r: CoreView<M>)
    ensures r.connection == v.connection && r.closed == v.closed
    ensures r.pendingReconnects == v.pendingReconnects + (if v.closed then 0 else 1)
    ensures r.events == v.events + [ConnectionClosed(reason)]
  {
    v.(pendingReconnects := v.pendingReconnects + (if v.closed then 0 else 1),
       events := v.events + [ConnectionClosed(reason)])
  }

  /** A new connection right after its start: open and listening when the
      connect succeeded, otherwise disposed with the connect error. */
  function StartedView<M>(ok: bool): ConnView<M> {
    ConnView(true, !ok, ok, false, ok, [], [], if ok then [] else [Some(ConnectFailed)])
  }

  class BaseClient<M> {
    const backoff: ReconnectionTime
    var connection: WsConnection?<M>
    var closed: bool
    var events: seq<ClientEvent>
    /** Reconnect tasks scheduled by a disposal that have not run yet. */
    var pendingReconnects: nat

    ghost predicate Valid()
      reads this, connection
    {
      connection != null ==> connection.Valid()
    }

    function View(): CoreView<M>
      reads this
    {
      CoreView(connection, closed, events, pendingReconnects)
    }

    constructor (minReconnectMs: int, maxReconnectMs: int)
      ensures Valid()
      ensures fresh(backoff) && backoff.minTime == minReconnectMs && backoff.maxTime == maxReconnectMs
      ensures backoff.attempts == 0
      ensures connection == null && !closed && events == [] && pendingReconnects == 0
    {
      backoff := new ReconnectionTime(minReconnectMs, maxReconnectMs);
      connection := null;
      closed := false;
      events := [];
      pendingReconnects := 0;
    }

    /** A connection exists and its socket is open. */
    predicate IsConnected()
      reads this, connection
    {
      connection != null && connection.open
    }

    /** The first half of `ConnectAsync`: clears `Closed`, replaces the
        connection with a new one and starts it. On success the backoff is
        reset; the owner then runs its post-connect hook and finally
        `RaiseConnected`. On failure the new connection is already disposed
        with the connect error, and nothing else happened. */
    method StartConnection(connectSucceeds: bool) returns (ok: bool)
      modifies this, backoff
      ensures Valid() && fresh(connection) && !closed
      ensures ok == connectSucceeds
      ensures connection.View() == StartedView(ok)
      ensures backoff.attempts == if ok then 0 else old(backoff.attempts)
      ensures events == old(events) && pendingReconnects == old(pendingReconnects)
    {
      closed := false;
      var c := new WsConnection<M>();
      connection := c;
      var r := c.StartAsync(connectSucceeds);
      ok := r == Ok(true);
      if ok {
        backoff.Connected();
      }
    }

    /** The last step of a successful `ConnectAsync`. */
    method RaiseConnected()
      modifies this`events
      ensures events == old(events) + [Connected]
    {
      events := events + [Connected];
    }

    /** Writes to the current connection; a completed no-op without one.
        The result says whether the write disposed the connection, so that the
        owner runs its disposal handler. */
    method SendRaw(message: M) returns (disposedNow: bool)
      requires Valid()
      modifies connection
      ensures Valid()
      ensures connection == null ==> !disposedNow
      ensures connection != null ==>
        && connection.View() == AfterWrites(old(connection.View()), [message])
        && disposedNow == WriteFails(old(connection.View()), [message])
    {
      disposedNow := false;
      if connection != null {
        var wasDisposed := connection.disposed;
        connection.SendAsync(message);
        disposedNow := !wasDisposed && connection.disposed;
      }
    }

    /** Sets `Closed` and disposes the current connection, if there is one.
        The result says whether that disposal was the connection's first. */
    method Close() returns (disposedNow: bool)
      requires Valid()
      modifies this`closed, connection
      ensures Valid() && closed
      ensures connection == null ==> !disposedNow
      ensures connection != null ==>
        && connection.disposed && !connection.open
        && disposedNow == !old(connection.disposed)
        && (old(connection.disposed) ==> unchanged(connection))
        && (!old(connection.disposed) ==> connection.disposals == old(connection.disposals) + [None])
        && connection.started == old(connection.started) && connection.listening == old(connection.listening)
        && connection.faulty == old(connection.faulty)
        && connection.sent == old(connection.sent) && connection.received == old(connection.received)
    {
      closed := true;
      disposedNow := false;
      if connection != null {
        disposedNow := !connection.disposed;
        connection.Dispose(None);
      }
    }

    /** An exception thrown while handling a received message is reported with
        the raw text and goes no further. */
    method ReportProcessingException(message: string)
      modifies this`events
      ensures events == old(events) + [MessageProcessingException(message)]
    {
      events := events + [MessageProcessingException(message)];
    }

    /** The base disposal handler. */
    method ConnectionDisposing(reason: Option<Fault>)
      modifies this`pendingReconnects, this`events
      ensures View() == AfterDisposing(old(View()), reason)
    {
      if !closed {
        pendingReconnects := pendingReconnects + 1;
      }
      events := events + [ConnectionClosed(reason)];
    }

    /** One scheduled reconnect task runs: it takes the next backoff wait, adds
        the jitter and waits. If the cancellation token fires during the wait
        the task returns; otherwise the owner reconnects (the result is true).
        With no task pending nothing happens. `Closed` is not consulted. */
    method RunReconnectTask(jitterMs: int, cancelled: bool) returns (reconnect: bool)
      requires MinJitterMs <= jitterMs < MaxJitterMs
      modifies this`pendingReconnects, this`events, backoff
      ensures old(pendingReconnects) == 0 ==>
        !reconnect && pendingReconnects == 0 && events == old(events) && backoff.attempts == old(backoff.attempts)
      ensures old(pendingReconnects) > 0 ==>
        && pendingReconnects == old(pendingReconnects) - 1
        && backoff.attempts == old(backoff.attempts) + 1
        && events == old(events) + [ReconnectWait(ReconnectWaitMs(backoff.minTime, backoff.maxTime, old(backoff.attempts), jitterMs))]
        && reconnect == !cancelled
    {
      reconnect := false;
      if pendingReconnects == 0 {
        return;
      }
      pendingReconnects := pendingReconnects - 1;
      var waitMs := backoff.DoAttempt();
      waitMs := waitMs + jitterMs;
      events := events + [ReconnectWait(waitMs)];
      reconnect := !cancelled;
    }
  }

  /** The wait of a reconnect task: the backoff wait plus the jitter, where
      the backoff wait is the minimum doubled per attempt or the ceiling. */
  function ReconnectWaitMs(minTime: int, maxTime: int, attempts: nat, jitterMs: int): (r: int)
    ensures r - jitterMs <= maxTime
    ensures r - jitterMs == maxTime || r - jitterMs == minTime * Pow2(attempts)
  {
    WaitTime(minTime, maxTime, attempts) + jitterMs
  }

  /** A reconnect wait exceeds the backoff wait by at least 50 and less than
      750 milliseconds, so it never reaches the maximum plus 750. */
  lemma ReconnectWaitBounds(minTime: int, maxTime: int, attempts: nat, jitterMs: int)
    requires MinJitterMs <= jitterMs < MaxJitterMs
    ensures var w := ReconnectWaitMs(minTime, maxTime, attempts, jitterMs);
      && WaitTime(minTime, maxTime, attempts) + MinJitterMs <= w
      && w < WaitTime(minTime, maxTime, attempts) + MaxJitterMs
      && w < maxTime + MaxJitterMs
  {
  }
}
