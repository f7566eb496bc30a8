/**
 * Sequences of calls on one proxy, run one after another, and what holds across
 * every such sequence. A connect thread's completion is a call of its own, so the
 * possible orders of a connect attempt and the caller's other calls are all sequences
 * here; what two threads could do at the same moment is not.
 */
module SessionTraces {
  import S = SocketSession

  /** One call on the proxy, with the outcomes of the Android calls it makes. */
  datatype Call =
    | Connect
    | CompleteConnect(attempt: S.Outcome, rwInit: S.Outcome)
    | CancelConnect(creation: S.Outcome)
    | Close(rwClose: S.Outcome, socketClose: S.Outcome)
    | StreamError(cause: string)
    | DataReceived(data: S.Bytes)
    | SetReadBufferSize(size: S.int16)
    | Write(data: S.Bytes)

  /**
   * The call can happen and does not dereference a null field: a completion needs a
   * connect thread in flight.
   */
  predicate Defined(s: S.Session, c: Call)
  {
    match c
    case CompleteConnect(_, _) => s.pendingConnects > 0 && s.socket.Some?
    case CancelConnect(_) => S.IsConnecting(s) ==> s.socket.Some?
    case Close(_, _) => s.socket.Some?
    case StreamError(_) => s.socket.Some?
    case Write(_) => s.readerWriter.Some?
    case _ => true
  }

  function Apply(s: S.Session, c: Call): S.Session
    requires Defined(s, c)
  {
    match c
    case Connect => S.Connect(s)
    case CompleteConnect(attempt, rwInit) => S.CompleteConnect(s, attempt, rwInit)
    case CancelConnect(creation) => S.CancelConnect(s, creation)
    case Close(rwClose, socketClose) => S.Close(s, rwClose, socketClose)
    case StreamError(cause) => S.OnStreamError(s, cause)
    case DataReceived(data) => S.OnDataReceived(s, data)
    case SetReadBufferSize(size) => S.SetReadBufferSize(s, size)
    case Write(data) => S.Write(s, data)
  }

  /** The session after `calls`, or `None` when one of them cannot happen. */
  function Run(s: S.Session, calls: seq<Call>): S.Option<S.Session>
    decreases |calls|
  {
    if calls == [] then S.Some(s)
    else if !Defined(s, calls[0]) then S.None
    else Run(Apply(s, calls[0]), calls[1..])
  }

  /** The read buffer size after `calls`: the last size set, or `size` if none is. */
  function SizeAfter(size: S.int16, calls: seq<Call>): S.int16
    decreases |calls|
  {
    if calls == [] then size
    else SizeAfter(if calls[0].SetReadBufferSize? then calls[0].size else size, calls[1..])
  }

  /**
   * The session invariant the proxy keeps: while connecting a connect thread is in
   * flight, and a connected session has a reader/writer.
   */
  ghost predicate Consistent(s: S.Session)
  {
    && (S.IsConnecting(s) ==> s.pendingConnects > 0)
    && (s.state == S.Connected ==> s.readerWriter.Some?)
  }

  /** A session that has disconnected or failed and has no connect thread left. */
  ghost predicate Finished(s: S.Session)
  {
    (s.state == S.Disconnected || s.state == S.Error) && s.pendingConnects == 0
  }

  /** Every session the constructor produces is consistent. */
  lemma ConstructedConsistent(socket: S.Option<S.Handle>, uuid: string, secure: bool, rwInit: S.Outcome)
    requires S.Construct(socket, uuid, secure, rwInit).Success?
    ensures Consistent(S.Construct(socket, uuid, secure, rwInit).value)
  {
  }

  lemma StepConsistent(s: S.Session, c: Call)
    requires Consistent(s) && Defined(s, c)
    ensures Consistent(Apply(s, c))
  {
  }

  /** No sequence of calls breaks the invariant. */
  lemma {:induction false} RunConsistent(s: S.Session, calls: seq<Call>)
    requires Consistent(s)
    ensures Run(s, calls).Some? ==> Consistent(Run(s, calls).value)
    decreases |calls|
  {
    if calls != [] && Defined(s, calls[0]) {
      StepConsistent(s, calls[0]);
      RunConsistent(Apply(s, calls[0]), calls[1..]);
    }
  }

  /**
   * Events are only ever appended, at most two per call (a connect thread that
   * connects but cannot create its reader/writer fires two).
   */
  lemma {:induction false} RunOnlyAppendsEvents(s: S.Session, calls: seq<Call>)
    ensures Run(s, calls).Some? ==>
      && s.events <= Run(s, calls).value.events
      && |Run(s, calls).value.events| <= |s.events| + 2 * |calls|
    decreases |calls|
  {
    if calls != [] && Defined(s, calls[0]) {
      var t := Apply(s, calls[0]);
      assert s.events <= t.events && |t.events| <= |s.events| + 2;
      RunOnlyAppendsEvents(t, calls[1..]);
    }
  }

  /** The service UUID and the security flag never change. */
  lemma {:induction false} RunKeepsEndpoint(s: S.Session, calls: seq<Call>)
    ensures Run(s, calls).Some? ==>
      Run(s, calls).value.uuid == s.uuid && Run(s, calls).value.isSecure == s.isSecure
    decreases |calls|
  {
    if calls != [] && Defined(s, calls[0]) {
      RunKeepsEndpoint(Apply(s, calls[0]), calls[1..]);
    }
  }

  /** `getReadBufferSize()` returns the last size set, and the initial one until then. */
  lemma {:induction false} RunReadBufferSize(s: S.Session, calls: seq<Call>)
    ensures Run(s, calls).Some? ==> S.GetReadBufferSize(Run(s, calls).value) == SizeAfter(s.readBufferSize, calls)
    decreases |calls|
  {
    if calls != [] && Defined(s, calls[0]) {
      RunReadBufferSize(Apply(s, calls[0]), calls[1..]);
    }
  }

  /** Once attached, a reader/writer is never detached: no call sets it back to null. */
  lemma {:induction false} RunKeepsReaderWriter(s: S.Session, calls: seq<Call>)
    requires s.readerWriter.Some?
    ensures Run(s, calls).Some? ==> Run(s, calls).value.readerWriter.Some?
    decreases |calls|
  {
    if calls != [] && Defined(s, calls[0]) {
      RunKeepsReaderWriter(Apply(s, calls[0]), calls[1..]);
    }
  }

  /**
   * A session that has disconnected or failed, with no connect thread left, can never
   * connect again: `connect()` and `cancelConnect()` are no-ops from there, and only
   * `close()` and `onStreamError` move it, between `Disconnected` and `Error`.
   */
  lemma {:induction false} FinishedStaysFinished(s: S.Session, calls: seq<Call>)
    requires Finished(s)
    ensures Run(s, calls).Some? ==> Finished(Run(s, calls).value)
    decreases |calls|
  {
    if calls != [] && Defined(s, calls[0]) {
      assert Finished(Apply(s, calls[0]));
      FinishedStaysFinished(Apply(s, calls[0]), calls[1..]);
    }
  }

  /** `chunks` delivered by the reader/writer, one `onDataReceived` each. */
  function Deliveries(chunks: seq<S.Bytes>): (calls: seq<Call>)
    ensures |calls| == |chunks|
  {
    if chunks == [] then [] else [DataReceived(chunks[0])] + Deliveries(chunks[1..])
  }

  /** The events forwarding `chunks`, seen from a proxy in snapshot `at`. */
  function Forwarded(chunks: seq<S.Bytes>, at: S.Snapshot): (events: seq<S.Event>)
    ensures |events| == |chunks|
  {
    if chunks == [] then [] else [S.ReceivedDataEvent(chunks[0], at)] + Forwarded(chunks[1..], at)
  }

  /**
   * Received data is forwarded exactly: one `receivedData` event per chunk, carrying
   * that chunk, in delivery order, and nothing else about the session changes.
   */
  lemma {:induction false} DeliveriesForwarded(s: S.Session, chunks: seq<S.Bytes>)
    ensures Run(s, Deliveries(chunks)) == S.Some(s.(events := s.events + Forwarded(chunks, s.Snap())))
    decreases |chunks|
  {
    if chunks == [] {
      assert s.events + [] == s.events;
    } else {
      var t := S.OnDataReceived(s, chunks[0]);
      assert t.Snap() == s.Snap();
      DeliveriesForwarded(t, chunks[1..]);
      assert s.events + Forwarded(chunks, s.Snap())
          == (s.events + [S.ReceivedDataEvent(chunks[0], s.Snap())]) + Forwarded(chunks[1..], s.Snap());
    }
  }

  /**
   * A successful attempt from `Open`: `Open`, `Connecting`, `Connected`, one connected
   * event, and a reader/writer of the current buffer size.
   */
  lemma SuccessfulConnect(s: S.Session)
    requires s.state == S.Open && s.socket.Some?
    ensures var t := S.Connect(s);
      && S.IsConnecting(t)
      && var u := S.CompleteConnect(t, S.Ok, S.Ok);
      && u.state == S.Connected && S.IsConnected(u)
      && |u.events| == |s.events| + 1 && u.events[|s.events|].ConnectedEvent?
      && u.readerWriter == S.Some(S.NewReaderWriter(s.readBufferSize))
  {
  }

  /**
   * A failed attempt from `Open`: `Open`, `Connecting`, `Error`, one error event with
   * the exception's message, no reader/writer attached, the socket not connected.
   */
  lemma FailedConnect(s: S.Session, message: string, rwInit: S.Outcome)
    requires s.state == S.Open && s.socket.Some?
    ensures var u := S.CompleteConnect(S.Connect(s), S.Thrown(message), rwInit);
      && u.state == S.Error && !S.IsConnected(u)
      && u.events == s.events + [S.ErrorEvent(message, u.Snap())]
      && u.readerWriter == s.readerWriter
  {
  }

  /**
   * Open, connect, write three bytes, then lose the stream: the bytes reach the
   * reader/writer, and the session ends in `Error` with the connection-lost event last.
   */
  lemma EndToEnd(socket: S.Handle, uuid: string, secure: bool)
    requires !socket.connected
    ensures var s := S.Construct(S.Some(socket), uuid, secure, S.Ok).value;
      var calls := [Connect, CompleteConnect(S.Ok, S.Ok), Write([1, 2, 3]), StreamError("read failed")];
      && Run(s, calls).Some?
      && var t := Run(s, calls).value;
      && t.state == S.Error && !S.IsConnected(t)
      && t.readerWriter.Some? && t.readerWriter.value.sent == [[1, 2, 3]]
      && |t.events| == 2
      && t.events[0].ConnectedEvent?
      && t.events[1] == S.ErrorEvent(S.ConnectionLostMessage, t.Snap())
  {
  }

  /**
   * `cancelConnect()` does not stop the connect thread. When that thread's attempt
   * then fails, as the closed socket makes it, the session that cancelling returned to
   * `Open` moves to `Error` and the listener gets an error event after all.
   */
  lemma CancelledAttemptStillReports(s: S.Session, message: string, rwInit: S.Outcome)
    requires s.state == S.Open && s.socket.Some?
    ensures var t := S.CancelConnect(S.Connect(s), S.Ok);
      && t.state == S.Open && t.pendingConnects == s.pendingConnects + 1
      && var u := S.CompleteConnect(t, S.Thrown(message), rwInit);
      && u.state == S.Error
      && u.events == s.events + [S.ErrorEvent(message, u.Snap())]
  {
  }
}
