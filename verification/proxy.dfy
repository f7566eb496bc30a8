/**
 * `BluetoothSocketProxy` as a class over its own fields. The Android socket and the
 * connected reader/writer are objects of their own, so that replacing the socket on a
 * cancelled connect yields a new object and closing it changes the object the proxy
 * (and the caller that handed it in) holds. Each method's contract ties the proxy's
 * abstract value, `Model()`, to the matching function of `SocketSession`.
 */
module Proxy {
  import S = SocketSession

  /** Android's `BluetoothSocket`, reduced to its status flags. */
  class BluetoothSocket {
    const uuid: string
    const secure: bool
    var connected: bool
    var closed: bool

    constructor (uuid: string, secure: bool, connected: bool)
      ensures View() == S.Handle(uuid, secure, connected, false)
    {
      this.uuid := uuid;
      this.secure := secure;
      this.connected := connected;
      this.closed := false;
    }

    function View(): S.Handle
      reads this
    {
      S.Handle(uuid, secure, connected, closed)
    }

    /** `connect()` returning normally. */
    method Connect()
      modifies this
      ensures View() == old(View()).AfterConnect()
    {
      connected := true;
    }

    /** `close()`. */
    method Close()
      modifies this
      ensures View() == old(View()).AfterClose()
    {
      connected, closed := false, true;
    }
  }

  /** `createRfcommSocketToServiceRecord(UUID.fromString(uuid))`. */
  method CreateRfcommSocket(uuid: string) returns (socket: BluetoothSocket)
    ensures fresh(socket) && socket.View() == S.Handle(uuid, true, false, false)
  {
    socket := new BluetoothSocket(uuid, true, false);
  }

  /** `createInsecureRfcommSocketToServiceRecord(UUID.fromString(uuid))`. */
  method CreateInsecureRfcommSocket(uuid: string) returns (socket: BluetoothSocket)
    ensures fresh(socket) && socket.View() == S.Handle(uuid, false, false, false)
  {
    socket := new BluetoothSocket(uuid, false, false);
  }

  /** The connected reader/writer: bound to one socket and one buffer size for its lifetime. */
  class ConnectedReaderWriter {
    const socket: BluetoothSocket
    const bufferSize: S.int16
    var closed: bool
    ghost var sent: seq<S.Bytes>

    constructor (socket: BluetoothSocket, bufferSize: S.int16)
      ensures this.socket == socket && View() == S.NewReaderWriter(bufferSize)
    {
      this.socket := socket;
      this.bufferSize := bufferSize;
      this.closed := false;
      this.sent := [];
    }

    ghost function View(): S.ReaderWriter
      reads this
    {
      S.ReaderWriter(bufferSize, closed, sent)
    }

    method Close()
      modifies this
      ensures View() == old(View()).AfterClose()
    {
      closed := true;
    }

    method Send(data: S.Bytes)
      modifies this
      ensures View() == old(View()).AfterSend(data)
    {
      sent := sent + [data];
    }
  }

  class BluetoothSocketProxy {
    var btSocket: BluetoothSocket?
    const uuid: string
    const isSecure: bool
    var pendingConnects: nat   // connect threads started and not yet finished
    var readerWriter: ConnectedReaderWriter?
    var state: S.SocketState
    var readBufferSizeInBytes: S.int16
    ghost var events: seq<S.Event>   // what fireEvent has been called with

    ghost function SocketView(): S.Option<S.Handle>
      reads this, btSocket
    {
      if btSocket == null then S.None else S.Some(btSocket.View())
    }

    ghost function ReaderWriterView(): S.Option<S.ReaderWriter>
      reads this, readerWriter
    {
      if readerWriter == null then S.None else S.Some(readerWriter.View())
    }

    /** The fields as they are when `fireEvent` is called now. */
    ghost function Snap(): S.Snapshot
      reads this, btSocket, readerWriter
    {
      S.Snapshot(state, SocketView(), ReaderWriterView())
    }

    ghost function Model(): S.Session
      reads this, btSocket, readerWriter
    {
      S.Session(state, SocketView(), ReaderWriterView(), uuid, isSecure,
                readBufferSizeInBytes, pendingConnects, events)
    }

    /** The fields as the initialisers and the first four assignments leave them. */
    constructor Init(socket: BluetoothSocket?, uuid: string, secure: bool)
      ensures btSocket == socket && readerWriter == null
      ensures Model() == S.Initial(old(if socket == null then S.None else S.Some(socket.View())), uuid, secure)
    {
      btSocket := socket;
      this.uuid := uuid;
      isSecure := secure;
      pendingConnects := 0;
      readerWriter := null;
      state := S.Open;
      readBufferSizeInBytes := S.DefaultReadBufferSize;
      events := [];
    }

    /**
     * The Java constructor. A connected socket gets a reader/writer at once; if that
     * throws, the socket is quietly closed and the exception is passed on.
     */
    static method Create(socket: BluetoothSocket?, uuid: string, secure: bool, rwInit: S.Outcome)
      returns (r: S.Result<BluetoothSocketProxy>)
      modifies socket
      ensures var expected := S.Construct(old(if socket == null then S.None else S.Some(socket.View())), uuid, secure, rwInit);
        && (r.Success? <==> expected.Success?)
        && (r.Success? ==> fresh(r.value) && r.value.btSocket == socket && r.value.Model() == expected.value)
        && (r.Failure? ==> r.message == expected.message)
      ensures r.Success? && socket != null ==> socket.View() == old(socket.View())
      ensures r.Failure? ==> socket != null && socket.View() == old(socket.View()).AfterClose()
    {
      var proxy := new BluetoothSocketProxy.Init(socket, uuid, secure);
      if proxy.IsConnected() {
        proxy.state := S.Connected;
        if rwInit.Thrown? {
          CloseSocketQuietly(socket);
          return S.Failure(rwInit.message);
        }
        proxy.readerWriter := new ConnectedReaderWriter(socket, proxy.readBufferSizeInBytes);
      }
      r := S.Success(proxy);
    }

    /** `isConnected()`. */
    function IsConnected(): (r: bool)
      reads this, btSocket, readerWriter
      ensures r == S.IsConnected(Model())
    {
      btSocket != null && btSocket.connected
    }

    /** `isConnecting()`. */
    function IsConnecting(): (r: bool)
      reads this, btSocket, readerWriter
      ensures r == S.IsConnecting(Model())
    {
      state == S.Connecting
    }

    /** `getReadBufferSize()`. */
    function GetReadBufferSize(): (r: S.int16)
      reads this, btSocket, readerWriter
      ensures r == S.GetReadBufferSize(Model())
    {
      readBufferSizeInBytes
    }

    /** `setReadBufferSize(size)`. */
    method SetReadBufferSize(size: S.int16)
      modifies this
      ensures btSocket == old(btSocket) && readerWriter == old(readerWriter)
      ensures Model() == S.SetReadBufferSize(old(Model()), size)
    {
      readBufferSizeInBytes := size;
    }

    /** `closeSocketQuietly(socket)`: a failing close is only logged. */
    static method CloseSocketQuietly(socket: BluetoothSocket)
      modifies socket
      ensures socket.View() == old(socket.View()).AfterClose()
    {
      socket.Close();
    }

    /** The synchronous part of `connect()`; the thread's body is `CompleteConnect`. */
    method Connect()
      modifies this
      ensures btSocket == old(btSocket) && readerWriter == old(readerWriter)
      ensures Model() == S.Connect(old(Model()))
    {
      if state != S.Open {
        return;
      }
      state := S.Connecting;
      pendingConnects := pendingConnects + 1;
    }

    /** The catch block of the connect thread. */
    method ConnectFailed(message: string)
      requires btSocket != null
      modifies this, btSocket
      ensures btSocket == old(btSocket) && readerWriter == old(readerWriter)
      ensures Model() == S.ConnectFailed(old(Model()), message)
    {
      if IsConnected() {
        CloseSocketQuietly(btSocket);
      }
      state := S.Error;
      events := events + [S.ErrorEvent(message, Snap())];
    }

    /** The connect thread, run to its end against the socket the proxy holds. */
    method CompleteConnect(attempt: S.Outcome, rwInit: S.Outcome)
      requires pendingConnects > 0 && btSocket != null
      modifies this, btSocket
      ensures btSocket == old(btSocket)
      ensures readerWriter != old(readerWriter) ==> fresh(readerWriter) && readerWriter.socket == btSocket
      ensures Model() == S.CompleteConnect(old(Model()), attempt, rwInit)
    {
      pendingConnects := pendingConnects - 1;
      if attempt.Thrown? {
        ConnectFailed(attempt.message);
        return;
      }
      btSocket.Connect();
      state := S.Connected;
      events := events + [S.ConnectedEvent(Snap())];
      if rwInit.Thrown? {
        ConnectFailed(rwInit.message);
        return;
      }
      readerWriter := new ConnectedReaderWriter(btSocket, readBufferSizeInBytes);
    }

    /** `cancelConnect()`; `creation` is the outcome of the socket factory. */
    method CancelConnect(creation: S.Outcome)
      requires state == S.Connecting ==> btSocket != null
      modifies this, btSocket
      ensures old(state) != S.Connecting ==> btSocket == old(btSocket)
      ensures old(state) == S.Connecting ==>
        old(btSocket) != null && old(btSocket).View() == old(btSocket.View()).AfterClose()
      ensures old(state) == S.Connecting && creation.Ok? ==> fresh(btSocket)
      ensures old(state) == S.Connecting && creation.Thrown? ==> btSocket == old(btSocket)
      ensures readerWriter == old(readerWriter)
      ensures Model() == S.CancelConnect(old(Model()), creation)
    {
      if !IsConnecting() {
        return;
      }
      CloseSocketQuietly(btSocket);
      state := S.Disconnected;
      if creation.Ok? {
        if isSecure {
          btSocket := CreateRfcommSocket(uuid);
          state := S.Open;
        } else {
          btSocket := CreateInsecureRfcommSocket(uuid);
          state := S.Open;
        }
      } else {
        state := S.Error;
        events := events + [S.ErrorEvent(S.CreateFailedPrefix + creation.message, Snap())];
      }
    }

    /** `close()`; the two outcomes are those of closing the reader/writer and the socket. */
    method Close(rwClose: S.Outcome, socketClose: S.Outcome)
      requires btSocket != null
      modifies this, btSocket, readerWriter
      ensures btSocket == old(btSocket) && readerWriter == old(readerWriter)
      ensures Model() == S.Close(old(Model()), rwClose, socketClose)
    {
      if readerWriter != null {
        if rwClose.Thrown? {
          events := events + [S.ErrorEvent(S.CloseFailedPrefix + rwClose.message, Snap())];
          return;
        }
        readerWriter.Close();
      }
      btSocket.Close();
      if socketClose.Thrown? {
        events := events + [S.ErrorEvent(S.CloseFailedPrefix + socketClose.message, Snap())];
        return;
      }
      state := S.Disconnected;
      events := events + [S.DisconnectedEvent(S.DisconnectedMessage, Snap())];
    }

    /** `write(data)`: a socket that is not connected is only logged. */
    method Write(data: S.Bytes)
      requires readerWriter != null
      modifies readerWriter
      ensures Model() == S.Write(old(Model()), data)
    {
      readerWriter.Send(data);
    }

    /** `onDataReceived(data)`, called by the reader/writer. */
    method OnDataReceived(data: S.Bytes)
      modifies this
      ensures btSocket == old(btSocket) && readerWriter == old(readerWriter)
      ensures Model() == S.OnDataReceived(old(Model()), data)
    {
      events := events + [S.ReceivedDataEvent(data, Snap())];
    }

    /** `onStreamError(cause)`, called by the reader/writer. */
    method OnStreamError(cause: string)
      requires btSocket != null
      modifies this, btSocket
      ensures btSocket == old(btSocket) && readerWriter == old(readerWriter)
      ensures Model() == S.OnStreamError(old(Model()), cause)
    {
      CloseSocketQuietly(btSocket);
      state := S.Error;
      events := events + [S.ErrorEvent(S.ConnectionLostMessage, Snap())];
    }
  }
}
