# BluetoothSocketProxy socket lifecycle, in Dafny

This project models the socket lifecycle of `BluetoothSocketProxy`, the Titanium
Bluetooth module's proxy around one Android RFCOMM socket. The proxy keeps a state
(`open`, `connecting`, `connected`, `disconnected`, `error`), the Android socket, the
connected reader/writer, the service UUID and security flag, and a read buffer size.
Its operations move between the states and report what happened to a listener through
`fireEvent` with the events `connected`, `disconnected`, `error` and `receivedData`.

The model has three files:

- `session.dfy` (module `SocketSession`) is the state machine on values. A `Session`
  holds the proxy's fields plus the list of events fired so far. Each operation is a
  function from the session before the call to the session after it. Its `ensures`
  clauses state the guard, the new state, the exact events fired and which fields stay
  as they were. Android calls that can throw an `IOException` take their outcome as a
  parameter (`Outcome`: `Ok` or `Thrown(message)`).
- `proxy.dfy` (module `Proxy`) is the class `BluetoothSocketProxy` over the Java fields.
  The Android socket (`BluetoothSocket`) and the reader/writer (`ConnectedReaderWriter`)
  are objects of their own. Replacing the socket in `cancelConnect` therefore yields a
  `fresh` object, and closing a socket changes the object the caller also holds. Each
  method proves that the proxy's abstract value `Model()` moves exactly as the matching
  `SocketSession` function says.
- `traces.dfy` (module `SessionTraces`) runs sequences of calls and proves, by
  induction, what holds across all of them. It also proves four scenarios: a successful
  connect, a failed connect, an end-to-end run, and a cancel followed by the late failure
  of the attempt it cancelled.

Every event records a snapshot of the proxy's fields as they are when `fireEvent` is
called (lines 73, 83, 128, 145, 149, 202 and 213). How Kroll then dispatches the event
to a listener is not modelled. The snapshot is how the contracts state the order of
effects. For example, the `connected` event is fired with the state already
`connected` and before the reader/writer is attached. Another example: the error event
of a failed attempt is fired after the socket has been closed and the state set to
`error`.

The `connect()` thread is split in two. `Connect` is the synchronous part: it sets
`connecting` and counts one more attempt in flight (`pendingConnects`, standing for
`connectThread`). `CompleteConnect(attempt, rwInit)` is the thread's body, run to its
end as a separate call.

Four behaviours of the code are easy to get wrong, and the model follows the code in
each:

- The reader/writer is created inside the same `try` as the connect call (line 74).
  If creating it throws, the thread first fires `connected` and then goes through the
  same `catch`. That closes the now-connected socket, sets `error` and fires an `error`
  event. The failure is not left unhandled.
- `readerWriter` is never set back to null. After `close()` a closed reader/writer stays
  attached, and after `onStreamError` the reader/writer stays attached as it was, so "a
  reader/writer exists iff connected" does not hold. What holds is that `connected`
  implies a reader/writer (`RunConsistent`), and that an attached reader/writer stays
  attached (`RunKeepsReaderWriter`).
- A `close()` whose reader/writer close or socket close throws leaves the state unchanged,
  even though a throwing socket close leaves the socket closed (see "## Left out").
- `cancelConnect()` does not stop the connect thread. When that thread's attempt later
  fails, it moves the session that cancelling returned to `open` into `error` and fires
  an `error` event (`CancelledAttemptStillReports`).

## Model

| member | source | states |
|---|---|---|
| SocketSession.Construct | android/src/appcelerator/bluetooth/BluetoothSocketProxy.java:39-57 | Construction fails iff the socket is connected and creating the reader/writer throws, and the failure carries that message. Otherwise the session has the given socket, UUID and flag, buffer size 4096, no events and no attempt in flight. It is `connected` with a 4096-byte reader/writer iff the socket is connected, and `open` with none otherwise. |
| SocketSession.Connect | android/src/appcelerator/bluetooth/BluetoothSocketProxy.java:59-67 | Outside `open` the session is returned unchanged. From `open` the state becomes `connecting` and one attempt is added. Socket, reader/writer and events never change, so nothing is fired and no I/O happens before the attempt. |
| SocketSession.ConnectFailed | android/src/appcelerator/bluetooth/BluetoothSocketProxy.java:75-85 | The socket is closed only if it reports connected. The state becomes `error`, the socket is left not connected, and exactly one `error` event carrying the exception's message is appended. That event sees the closed socket and the `error` state. The reader/writer is untouched. |
| SocketSession.CompleteConnect | android/src/appcelerator/bluetooth/BluetoothSocketProxy.java:68-87 | One attempt fewer is in flight. On success the state becomes `connected` and the socket connected. Exactly one `connected` event is fired, and it sees `connected` but still the old reader/writer. A reader/writer of the current buffer size is then attached. If the connect throws, the `ConnectFailed` outcome applies with no reader/writer attached. If the reader/writer throws, the `connected` event is followed by one `error` event and the socket is closed. |
| SocketSession.CancelConnect | android/src/appcelerator/bluetooth/BluetoothSocketProxy.java:105-131 | Outside `connecting` the session is returned unchanged. Otherwise the old socket is closed. If creation succeeds, the state is `open`, the socket is a new unconnected one for the same UUID and security flag, and no event is fired. If creation fails, the state is `error`, the closed old socket stays, and exactly one `error` event prefixed "cannot create socket, Exception: " is fired. The reader/writer is unchanged. |
| SocketSession.Close | android/src/appcelerator/bluetooth/BluetoothSocketProxy.java:133-152 | If both closes succeed, the reader/writer is closed, then the socket. The state becomes `disconnected` and exactly one `disconnected` event "Socket is Disconnected" is fired. If either close throws, the state is unchanged and exactly one `error` event with that message is fired instead. A throwing reader/writer close skips the proxy's own `btSocket.close()` (line 141), and a throwing socket close still leaves the socket closed and not connected, as a quiet close does, with the reader/writer closed. |
| SocketSession.OnStreamError | android/src/appcelerator/bluetooth/BluetoothSocketProxy.java:205-214 | The socket is closed and the state becomes `error`. Exactly one `error` event "Device connection was lost." is fired whatever the cause, and it sees the closed socket. |
| SocketSession.OnDataReceived | android/src/appcelerator/bluetooth/BluetoothSocketProxy.java:196-203 | Exactly one `receivedData` event is fired, carrying the data unchanged. Nothing else in the session changes. |
| SocketSession.SetReadBufferSize | android/src/appcelerator/bluetooth/BluetoothSocketProxy.java:182-187 | `getReadBufferSize` then returns the new size. An existing reader/writer keeps its size, and nothing else changes. |
| SocketSession.Write | android/src/appcelerator/bluetooth/BluetoothSocketProxy.java:172-180 | The data is appended to what the reader/writer was asked to send, whatever the state. State and events do not change. |
| Proxy.BluetoothSocket.Connect | android/src/appcelerator/bluetooth/BluetoothSocketProxy.java:70 | A `connect()` that returns normally leaves the socket connected. |
| Proxy.BluetoothSocket.Close | android/src/appcelerator/bluetooth/BluetoothSocketProxy.java:141 | `close()` leaves the socket closed and not connected. |
| Proxy.CreateRfcommSocket | android/src/appcelerator/bluetooth/BluetoothSocketProxy.java:115-117 | The secure factory returns a new, unconnected, open, secure socket for the UUID. |
| Proxy.CreateInsecureRfcommSocket | android/src/appcelerator/bluetooth/BluetoothSocketProxy.java:118-120 | The insecure factory returns a new, unconnected, open, insecure socket for the UUID. |
| Proxy.ConnectedReaderWriter.Close | android/src/appcelerator/bluetooth/BluetoothSocketProxy.java:138-140 | Closing the reader/writer marks it closed. Its effect on the socket is not modelled (see "Left out"). |
| Proxy.ConnectedReaderWriter.Send | android/src/appcelerator/bluetooth/BluetoothSocketProxy.java:179 | `send` appends the data to what the reader/writer was asked to send. |
| Proxy.BluetoothSocketProxy.Init | android/src/appcelerator/bluetooth/BluetoothSocketProxy.java:30-46 | The field initialisers and the first assignments give state `open`, buffer size 4096, no reader/writer and the caller's socket. |
| Proxy.BluetoothSocketProxy.Create | android/src/appcelerator/bluetooth/BluetoothSocketProxy.java:39-57 | The proxy moves as `Construct` says. On failure the caller's socket object has been closed. On success the proxy holds that same object and the object is untouched. |
| Proxy.BluetoothSocketProxy.IsConnected | android/src/appcelerator/bluetooth/BluetoothSocketProxy.java:90-97 | False when there is no socket, otherwise the socket's own connected flag, not the cached state. |
| Proxy.BluetoothSocketProxy.IsConnecting | android/src/appcelerator/bluetooth/BluetoothSocketProxy.java:99-103 | True iff the state is `connecting`. |
| Proxy.BluetoothSocketProxy.GetReadBufferSize | android/src/appcelerator/bluetooth/BluetoothSocketProxy.java:189-194 | The buffer size held in the session. |
| Proxy.BluetoothSocketProxy.SetReadBufferSize | android/src/appcelerator/bluetooth/BluetoothSocketProxy.java:182-187 | The fields move as `SocketSession.SetReadBufferSize` says. |
| Proxy.BluetoothSocketProxy.CloseSocketQuietly | android/src/appcelerator/bluetooth/BluetoothSocketProxy.java:154-164 | The given socket object ends up closed, and nothing is thrown. |
| Proxy.BluetoothSocketProxy.Connect | android/src/appcelerator/bluetooth/BluetoothSocketProxy.java:59-88 | The fields move as `SocketSession.Connect` says. The socket and reader/writer objects stay the same. |
| Proxy.BluetoothSocketProxy.ConnectFailed | android/src/appcelerator/bluetooth/BluetoothSocketProxy.java:75-85 | The fields move as `SocketSession.ConnectFailed` says. |
| Proxy.BluetoothSocketProxy.CompleteConnect | android/src/appcelerator/bluetooth/BluetoothSocketProxy.java:68-87 | The fields move as `SocketSession.CompleteConnect` says. Any reader/writer it attaches is a new object bound to the proxy's socket. |
| Proxy.BluetoothSocketProxy.CancelConnect | android/src/appcelerator/bluetooth/BluetoothSocketProxy.java:105-131 | The fields move as `SocketSession.CancelConnect` says. While connecting, the old socket object is closed. After a successful creation the proxy holds a freshly allocated socket object; after a failed one it keeps the old object. |
| Proxy.BluetoothSocketProxy.Close | android/src/appcelerator/bluetooth/BluetoothSocketProxy.java:133-152 | The fields and the two objects move as `SocketSession.Close` says. |
| Proxy.BluetoothSocketProxy.Write | android/src/appcelerator/bluetooth/BluetoothSocketProxy.java:172-180 | Only the reader/writer changes, as `SocketSession.Write` says. |
| Proxy.BluetoothSocketProxy.OnDataReceived | android/src/appcelerator/bluetooth/BluetoothSocketProxy.java:196-203 | The fields move as `SocketSession.OnDataReceived` says. |
| Proxy.BluetoothSocketProxy.OnStreamError | android/src/appcelerator/bluetooth/BluetoothSocketProxy.java:205-214 | The fields move as `SocketSession.OnStreamError` says. |
| SessionTraces.ConstructedConsistent | android/src/appcelerator/bluetooth/BluetoothSocketProxy.java:47-56 | Every constructed session satisfies the invariant. |
| SessionTraces.RunConsistent | android/src/appcelerator/bluetooth/BluetoothSocketProxy.java:63-74 | Over any sequence of calls, `connecting` implies an attempt is in flight and `connected` implies a reader/writer is attached. |
| SessionTraces.RunOnlyAppendsEvents | android/src/appcelerator/bluetooth/BluetoothSocketProxy.java:68-87 | Events are only ever appended, never changed or dropped, and at most two are added per call. |
| SessionTraces.RunKeepsEndpoint | android/src/appcelerator/bluetooth/BluetoothSocketProxy.java:43-45 | No sequence of calls changes the UUID or the security flag. |
| SessionTraces.RunReadBufferSize | android/src/appcelerator/bluetooth/BluetoothSocketProxy.java:182-194 | After any sequence of calls, `getReadBufferSize` is the last size set, or the size before the calls if none was set (4096 after construction). |
| SessionTraces.RunKeepsReaderWriter | android/src/appcelerator/bluetooth/BluetoothSocketProxy.java:133-152 | Once a reader/writer is attached, no sequence of calls detaches it. |
| SessionTraces.FinishedStaysFinished | android/src/appcelerator/bluetooth/BluetoothSocketProxy.java:60-67 | A session in `disconnected` or `error` with no attempt in flight stays in those two states with no attempt, whatever is called. |
| SessionTraces.DeliveriesForwarded | android/src/appcelerator/bluetooth/BluetoothSocketProxy.java:196-203 | Delivering chunks appends exactly one `receivedData` event per chunk, carrying that chunk, in delivery order, and changes nothing else. |
| SessionTraces.SuccessfulConnect | android/src/appcelerator/bluetooth/BluetoothSocketProxy.java:62-74 | A successful attempt goes `open`, `connecting`, `connected`, fires exactly one `connected` event, and attaches a reader/writer of the current size. |
| SessionTraces.FailedConnect | android/src/appcelerator/bluetooth/BluetoothSocketProxy.java:75-85 | A failed attempt goes `open`, `connecting`, `error`, fires exactly one `error` event with the exception's message, and attaches no reader/writer. |
| SessionTraces.EndToEnd | android/src/appcelerator/bluetooth/BluetoothSocketProxy.java:172-214 | From an unconnected socket: connect, complete, write [1, 2, 3], then lose the stream. The bytes reach the reader/writer, the state is `error`, and the events are `connected` then "Device connection was lost.". |
| SessionTraces.CancelledAttemptStillReports | android/src/appcelerator/bluetooth/BluetoothSocketProxy.java:105-131 | After a cancel back to `open`, the still-running attempt failing moves the session to `error` and fires an `error` event. |

## Left out

- The connect thread runs concurrently with the caller, without locks. The model runs its body as a separate sequential call, so interleavings inside one call are not modelled.
- Proxy.ConnectedReaderWriter.Close: marks only the reader/writer closed. What the reader/writer's own `close()` does to the socket and its streams is not modelled, because that class is not part of this model.
- `BluetoothSocketConnectedReaderWriter` is not part of this model: its read loop, its stream handling and the internals of `send` and `close`. The reader/writer is opaque. It records only its buffer size, whether it was closed and what it was asked to send.
- Android I/O is not modelled: `connect`, `close`, `isConnected` and the two socket factories. The outcomes of `connect`, of the proxy's own `close` calls and of the socket factories are parameters, and a connect outcome is accepted even for a closed socket. `isConnected` reads the socket's `connected` flag, and a quiet close takes no outcome (see below).
- `getRemoteDevice` and the `BluetoothDevice` are left out. The device is used only as the socket factory.
- The Kroll binding is not modelled: `KrollDict` keys, `fireEvent` dispatch, `BufferProxy` and logging. Events are entries in a list, and the one `KrollDict` that the connect thread reuses for both of its events is not modelled.
- `UUID.fromString` may throw `IllegalArgumentException` for a malformed UUID. That unchecked exception is not modelled.
- `e.getMessage()` may return null. The connect thread puts that message into the `error` event as it is (line 82), so that event's `errorMessage` may be null itself; the cancel and close messages (lines 127 and 148) then end in the text "null". Messages are always strings here.
- A quiet close (`closeSocketQuietly`) logs a `close()` that throws and returns normally. The model assumes a socket whose `close()` throws is closed anyway, and applies that rule to every `close()` on the socket: the quiet closes and the proxy's own close at line 141, which then still fires its `error` event and keeps the state.
- Several calls dereference `btSocket`: the connect thread, `cancelConnect` while connecting, `close` and `onStreamError`. When `btSocket` is null they end in a `NullPointerException`, and the model requires a socket for them instead.
- SocketSession.Write: does not model an unchecked exception from `send` or a null reader/writer (a `NullPointerException`), because the reader/writer is opaque. The call requires a reader/writer.
- The `disconnected` state that `cancelConnect` passes through before the new socket is created is set and overwritten with no event in between, so no result shows it.
