/**
 * The socket lifecycle of `BluetoothSocketProxy` as a value-level state machine.
 *
 * A `Session` holds everything the proxy keeps in its fields (the socket state, the
 * Android socket, the reader/writer, the service UUID and security flag, the read
 * buffer size, the connect threads still running) plus the list of events it has
 * fired at its listener. Every operation of the proxy is a function from the session
 * before the call to the session after it; calls into Android that may throw an
 * `IOException` take their outcome as a parameter.
 *
 * Each event carries a `Snapshot` of the proxy's fields as they are when `fireEvent`
 * is called. This is what lets the contracts below state the order of effects inside
 * an operation.
 */
module SocketSession {

  /** Java `short`, the type of `readBufferSizeInBytes`. */
  newtype int16 = x: int | -0x8000 <= x < 0x8000

  /** The initial read buffer size, 4 * 1024 bytes. */
  const DefaultReadBufferSize: int16 := 4096

  /** Fixed texts of the event payloads. */
  const DisconnectedMessage := "Socket is Disconnected"
  const ConnectionLostMessage := "Device connection was lost."
  const CreateFailedPrefix := "cannot create socket, Exception: "
  const CloseFailedPrefix := " trying to close socket but exception: "

  type Bytes = seq<bv8>

  datatype Option<T> = None | Some(value: T)

  /** The outcome of an Android call that may throw an `IOException` with a message. */
  datatype Outcome = Ok | Thrown(message: string)

  datatype Result<T> = Success(value: T) | Failure(message: string)

  /** The private `socketState` enum. */
  datatype SocketState = Connecting | Connected | Disconnected | Open | Error

  /** An Android RFCOMM socket, as far as the proxy reads and changes it. */
  datatype Handle = Handle(uuid: string, secure: bool, connected: bool, closed: bool)
  {
    /** The socket after its blocking `connect()` returned normally. */
    function AfterConnect(): Handle
    {
      this.(connected := true)
    }

    /** The socket after `close()`. */
    function AfterClose(): Handle
    {
      this.(connected := false, closed := true)
    }
  }

  /**
   * The connected reader/writer, kept opaque: the buffer size it was created with,
   * whether it was closed, and the data handed to its `send`.
   */
  datatype ReaderWriter = ReaderWriter(bufferSize: int16, closed: bool, sent: seq<Bytes>)
  {
    function AfterClose(): ReaderWriter
    {
      this.(closed := true)
    }

    function AfterSend(data: Bytes): ReaderWriter
    {
      this.(sent := sent + [data])
    }
  }

  function NewReaderWriter(bufferSize: int16): ReaderWriter
  {
    ReaderWriter(bufferSize, false, [])
  }

  /** The proxy's fields at the moment `fireEvent` is called. */
  datatype Snapshot = Snapshot(state: SocketState, socket: Option<Handle>, readerWriter: Option<ReaderWriter>)

  /** The events fired through `fireEvent`, with their payload. */
  datatype Event =
    | ConnectedEvent(at: Snapshot)
    | DisconnectedEvent(message: string, at: Snapshot)
    | ErrorEvent(errorMessage: string, at: Snapshot)
    | ReceivedDataEvent(data: Bytes, at: Snapshot)

  datatype Session = Session(
    state: SocketState,
    socket: Option<Handle>,
    readerWriter: Option<ReaderWriter>,
    uuid: string,
    isSecure: bool,
    readBufferSize: int16,
    pendingConnects: nat,   // connect threads started and not yet finished
    events: seq<Event>)
  {
    function Snap(): Snapshot
    {
      Snapshot(state, socket, readerWriter)
    }

    function Fire(e: Event): Session
    {
      this.(events := events + [e])
    }
  }

  /** The configuration an operation must not touch. */
  predicate SameSettings(s: Session, r: Session)
  {
    r.uuid == s.uuid && r.isSecure == s.isSecure && r.readBufferSize == s.readBufferSize
  }

  /** `isConnected()`: the live socket's status, not the cached state. */
  predicate IsConnected(s: Session)
  {
    s.socket.Some? && s.socket.value.connected
  }

  /** `isConnecting()`. */
  predicate IsConnecting(s: Session)
  {
    s.state == Connecting
  }

  /** `getReadBufferSize()`. */
  function GetReadBufferSize(s: Session): int16
  {
    s.readBufferSize
  }

  /** The session right after the field initialisers and the constructor's assignments. */
  function Initial(socket: Option<Handle>, uuid: string, secure: bool): Session
  {
    Session(Open, socket, None, uuid, secure, DefaultReadBufferSize, 0, [])
  }

  /**
   * The constructor. A socket that is already connected puts the session in
   * `Connected` with a reader/writer of the default size; if creating that
   * reader/writer throws, construction fails with the same message (the caller's
   * socket is then quietly closed, which the class model states).
   */
  function Construct(socket: Option<Handle>, uuid: string, secure: bool, rwInit: Outcome): (r: Result<Session>)
    ensures r.Failure? <==> socket.Some? && socket.value.connected && rwInit.Thrown?
    ensures r.Failure? ==> r.message == rwInit.message
    ensures r.Success? ==>
      && r.value.socket == socket && r.value.uuid == uuid && r.value.isSecure == secure
      && r.value.readBufferSize == DefaultReadBufferSize
      && r.value.pendingConnects == 0 && r.value.events == []
      && r.value.state == (if IsConnected(r.value) then Connected else Open)
      && r.value.readerWriter == (if IsConnected(r.value) then Some(NewReaderWriter(DefaultReadBufferSize)) else None)
  {
    var s := Initial(socket, uuid, secure);
    if IsConnected(s) then
      if rwInit.Ok? then Success(s.(state := Connected, readerWriter := Some(NewReaderWriter(s.readBufferSize))))
      else Failure(rwInit.message)
    else
      Success(s)
  }

  /**
   * The synchronous part of `connect()`: outside `Open` nothing happens; from `Open`
   * the state becomes `Connecting` and a connect attempt is started, before any
   * I/O on the socket.
   */
  function Connect(s: Session): (r: Session)
    ensures s.state != Open ==> r == s
    ensures s.state == Open ==> IsConnecting(r) && r.pendingConnects == s.pendingConnects + 1
    ensures r.socket == s.socket && r.readerWriter == s.readerWriter && r.events == s.events
    ensures SameSettings(s, r)
  {
    if s.state != Open then s
    else s.(state := Connecting, pendingConnects := s.pendingConnects + 1)
  }

  /**
   * The `catch (IOException)` block of the connect thread: close the socket only if
   * it reports connected, then set `Error`, then fire one error event with the
   * exception's message.
   */
  function ConnectFailed(s: Session, message: string): (r: Session)
    ensures r.state == Error && !IsConnected(r)
    ensures r.socket == (if IsConnected(s) then Some(s.socket.value.AfterClose()) else s.socket)
    ensures r.events == s.events + [ErrorEvent(message, r.Snap())]
    ensures r.readerWriter == s.readerWriter && r.pendingConnects == s.pendingConnects
    ensures SameSettings(s, r)
  {
    var closed := if IsConnected(s) then s.(socket := Some(s.socket.value.AfterClose())) else s;
    var failed := closed.(state := Error);
    failed.Fire(ErrorEvent(message, failed.Snap()))
  }

  /**
   * The body of the connect thread, run to its end. `attempt` is the outcome of the
   * socket's blocking `connect()`, `rwInit` that of creating the reader/writer. A
   * reader/writer that cannot be created lands in the same catch block as a failed
   * connect, after the connected event has already been fired.
   */
  function CompleteConnect(s: Session, attempt: Outcome, rwInit: Outcome): (r: Session)
    requires s.pendingConnects > 0 && s.socket.Some?
    ensures r.pendingConnects == s.pendingConnects - 1 && SameSettings(s, r)
    ensures attempt.Ok? && rwInit.Ok? ==>
      && r.state == Connected && IsConnected(r)
      && r.socket == Some(s.socket.value.AfterConnect())
      && r.events == s.events + [ConnectedEvent(Snapshot(Connected, r.socket, s.readerWriter))]
      && r.readerWriter == Some(NewReaderWriter(s.readBufferSize))
    ensures attempt.Thrown? ==>
      && r.state == Error && !IsConnected(r)
      && r.socket == (if IsConnected(s) then Some(s.socket.value.AfterClose()) else s.socket)
      && r.events == s.events + [ErrorEvent(attempt.message, r.Snap())]
      && r.readerWriter == s.readerWriter
    ensures attempt.Ok? && rwInit.Thrown? ==>
      && r.state == Error && !IsConnected(r)
      && r.socket == Some(s.socket.value.AfterConnect().AfterClose())
      && r.events == s.events + [
           ConnectedEvent(Snapshot(Connected, Some(s.socket.value.AfterConnect()), s.readerWriter)),
           ErrorEvent(rwInit.message, r.Snap())]
      && r.readerWriter == s.readerWriter
  {
    var s0 := s.(pendingConnects := s.pendingConnects - 1);
    if attempt.Thrown? then
      ConnectFailed(s0, attempt.message)
    else
      var s1 := s0.(socket := Some(s.socket.value.AfterConnect()), state := Connected);
      var s2 := s1.Fire(ConnectedEvent(s1.Snap()));
      if rwInit.Ok? then s2.(readerWriter := Some(NewReaderWriter(s2.readBufferSize)))
      else ConnectFailed(s2, rwInit.message)
  }

  /**
   * `cancelConnect()`: outside `Connecting` nothing happens. Otherwise the socket is
   * quietly closed and replaced by a fresh, unconnected socket for the same UUID and
   * security flag; `creation` is the outcome of the socket factory. If it throws, the
   * closed socket stays and one error event is fired.
   */
  function CancelConnect(s: Session, creation: Outcome): (r: Session)
    requires IsConnecting(s) ==> s.socket.Some?
    ensures !IsConnecting(s) ==> r == s
    ensures IsConnecting(s) && creation.Ok? ==>
      && r.state == Open
      && r.socket == Some(Handle(s.uuid, s.isSecure, false, false))
      && r.events == s.events
    ensures IsConnecting(s) && creation.Thrown? ==>
      && r.state == Error
      && r.socket == Some(s.socket.value.AfterClose())
      && r.events == s.events + [ErrorEvent(CreateFailedPrefix + creation.message, r.Snap())]
    ensures IsConnecting(s) ==> !IsConnected(r)
    ensures r.readerWriter == s.readerWriter && r.pendingConnects == s.pendingConnects
    ensures SameSettings(s, r)
  {
    if !IsConnecting(s) then s
    else
      var cancelled := s.(socket := Some(s.socket.value.AfterClose()), state := Disconnected);
      if creation.Ok? then
        cancelled.(socket := Some(Handle(s.uuid, s.isSecure, false, false)), state := Open)
      else
        var failed := cancelled.(state := Error);
        failed.Fire(ErrorEvent(CreateFailedPrefix + creation.message, failed.Snap()))
  }

  /** True when both closes in `close()` return normally. */
  predicate CloseSucceeds(s: Session, rwClose: Outcome, socketClose: Outcome)
  {
    (s.readerWriter.None? || rwClose.Ok?) && socketClose.Ok?
  }

  /** The message of the first close in `close()` that throws. */
  function CloseFailure(s: Session, rwClose: Outcome, socketClose: Outcome): string
    requires !CloseSucceeds(s, rwClose, socketClose)
  {
    if s.readerWriter.Some? && rwClose.Thrown? then rwClose.message else socketClose.message
  }

  /**
   * `close()`: close the reader/writer if there is one, then the socket. When both
   * return normally the state becomes `Disconnected` and one disconnected event is
   * fired; when either throws, the state is left as it was and one error event is
   * fired instead. A socket whose `close()` throws is taken to be closed anyway, the
   * same rule that `closeSocketQuietly` follows.
   */
  function Close(s: Session, rwClose: Outcome, socketClose: Outcome): (r: Session)
    requires s.socket.Some?
    ensures CloseSucceeds(s, rwClose, socketClose) ==>
      && r.state == Disconnected && !IsConnected(r)
      && r.socket == Some(s.socket.value.AfterClose())
      && r.readerWriter == (if s.readerWriter.Some? then Some(s.readerWriter.value.AfterClose()) else None)
      && r.events == s.events + [DisconnectedEvent(DisconnectedMessage, r.Snap())]
    ensures !CloseSucceeds(s, rwClose, socketClose) ==>
      && r.state == s.state
      && r.events == s.events + [ErrorEvent(CloseFailedPrefix + CloseFailure(s, rwClose, socketClose), r.Snap())]
    ensures s.readerWriter.Some? && rwClose.Thrown? ==> r.socket == s.socket && r.readerWriter == s.readerWriter
    ensures !(s.readerWriter.Some? && rwClose.Thrown?) && socketClose.Thrown? ==>
      && r.socket == Some(s.socket.value.AfterClose()) && !IsConnected(r)
      && r.readerWriter == (if s.readerWriter.Some? then Some(s.readerWriter.value.AfterClose()) else None)
    ensures r.pendingConnects == s.pendingConnects && SameSettings(s, r)
  {
    if s.readerWriter.Some? && rwClose.Thrown? then
      s.Fire(ErrorEvent(CloseFailedPrefix + rwClose.message, s.Snap()))
    else
      var s1 := if s.readerWriter.Some? then s.(readerWriter := Some(s.readerWriter.value.AfterClose())) else s;
      var s2 := s1.(socket := Some(s.socket.value.AfterClose()));
      if socketClose.Thrown? then
        s2.Fire(ErrorEvent(CloseFailedPrefix + socketClose.message, s2.Snap()))
      else
        var s3 := s2.(state := Disconnected);
        s3.Fire(DisconnectedEvent(DisconnectedMessage, s3.Snap()))
  }

  /**
   * `onStreamError(cause)`: quietly close the socket, set `Error`, fire one error event
   * with a fixed message; the cause is not passed on.
   */
  function OnStreamError(s: Session, cause: string): (r: Session)
    requires s.socket.Some?
    ensures r.state == Error && !IsConnected(r)
    ensures r.socket == Some(s.socket.value.AfterClose())
    ensures r.events == s.events + [ErrorEvent(ConnectionLostMessage, r.Snap())]
    ensures r.readerWriter == s.readerWriter && r.pendingConnects == s.pendingConnects
    ensures SameSettings(s, r)
  {
    var lost := s.(socket := Some(s.socket.value.AfterClose()), state := Error);
    lost.Fire(ErrorEvent(ConnectionLostMessage, lost.Snap()))
  }

  /** `onDataReceived(data)`: forward the data, unchanged, in one event; nothing else changes. */
  function OnDataReceived(s: Session, data: Bytes): (r: Session)
    ensures r.events == s.events + [ReceivedDataEvent(data, s.Snap())]
    ensures r.(events := s.events) == s
  {
    s.Fire(ReceivedDataEvent(data, s.Snap()))
  }

  /**
   * `setReadBufferSize(size)`: only the size changes; a reader/writer that already
   * exists keeps the size it was created with.
   */
  function SetReadBufferSize(s: Session, size: int16): (r: Session)
    ensures GetReadBufferSize(r) == size
    ensures r.readerWriter == s.readerWriter
    ensures r.(readBufferSize := s.readBufferSize) == s
  {
    s.(readBufferSize := size)
  }

  /**
   * `write(data)`: the data is handed to the reader/writer whatever the state; a
   * socket that is not connected is only logged, so neither the state nor the events
   * change.
   */
  function Write(s: Session, data: Bytes): (r: Session)
    requires s.readerWriter.Some?
    ensures r.readerWriter.Some? && r.readerWriter.value.sent == s.readerWriter.value.sent + [data]
    ensures r.readerWriter.value.(sent := s.readerWriter.value.sent) == s.readerWriter.value
    ensures r.(readerWriter := s.readerWriter) == s
  {
    s.(readerWriter := Some(s.readerWriter.value.AfterSend(data)))
  }
}
