# SocketClient: a verified model of a single-connection WebSocket client

This project models `SocketClient`, a small WebSocket client wrapper for Windows Phone. It holds at most one
`MessageWebSocket` together with the `DataWriter` bound to its output stream, plus a `connected` flag. There are
three entry points:

- `SendMessage` connects lazily on the first call, then writes and stores the text.
- `Close` asks the socket to close with code 1000 and releases the handle.
- The `Closed` event handler disposes and releases the handle.

The `MessageReceived` handler reads the incoming text and drops it. Every transport failure goes through one of two
fixed policies that decide whether the exception is rethrown or swallowed:

- the send policy rethrows CannotConnect, NotFound, RequestTimeout and Unknown;
- the receive/close policy rethrows only Unknown.

The model has four modules:

- `ErrorPolicy` (`errors.dfy`) holds the status datatype, the outcome of an entry point
  (`Ok | Swallowed(status) | Propagated(status)`) and the two policies.
- `Uris` (`uris.dfy`) holds the URI gate `TryGetUri`. The platform's parser is a parameter: a total function from
  the raw string to the parsed scheme and fragment, or `None`.
- `Lifecycle` (`lifecycle.dfy`) is the pure specification. A `Shape` says which of the three fields are set, and
  each entry point is a step from one shape to the next with its outcome. `Run` folds the steps over any sequence of
  calls. Its lemmas state what one call does and what every sequence of calls preserves.
- `WP8SocketClient` (`socket_client.dfy`) holds the class itself, with the fields `messageWebSocket`,
  `messageWriter` and `connected` updated in place. Each method is proved to follow its `Lifecycle` step. Each also
  states what happens to object identity: a socket is reused or freshly created, a socket is disposed, close
  requests are recorded, and stored messages are committed on the writer.

Every transport call is an input saying whether it returned normally or threw, and with which status:
`ConnectAsync` together with the writer's creation, `WriteString` with `StoreAsync`, `Close(1000, …)`, and reading
a received message.

Four behaviours of the code that are easy to misread:

- `Close` clears the handle only when the close call returns normally. If the call throws, the handle stays.
- `connected` is never reset to false, and `messageWriter` is never cleared. Neither Close nor the Closed handler
  touches them, and a failed connect leaves them as an earlier connection set them.
- `MessageReceived` decodes the text and discards it; no callback is invoked.
- The scheme comparison in `TryGetUri` is exact and case-sensitive. Canonicalising the scheme is the parser's job.

## Model

| member | source | states |
|---|---|---|
| `ErrorPolicy.SendFailureOutcome` | WP8SocketClient/SocketClient.cs:69-80 | a send-path failure is propagated iff its status is CannotConnect, NotFound, RequestTimeout or Unknown, and swallowed otherwise; the status is kept |
| `ErrorPolicy.ReceiveCloseFailureOutcome` | WP8SocketClient/SocketClient.cs:124-132 | a receive- or close-path failure is propagated iff its status is Unknown; whatever it propagates, the send policy propagates too |
| `ErrorPolicy.SendOnlyRethrown` | WP8SocketClient/SocketClient.cs:71-80 | the statuses rethrown by the send path but swallowed by receive/close are exactly CannotConnect, NotFound and RequestTimeout |
| `Uris.EndpointString` | WP8SocketClient/SocketClient.cs:20 | the endpoint string is `ws://`, then the host, a colon and the port, each in its own positions |
| `Uris.TryGetUri` | WP8SocketClient/SocketClient.cs:83-110 | true iff the string parses as absolute, the fragment is null or empty, and the scheme is exactly `ws` or `wss`; the out URI is the parsed one on true and null on every false return |
| `Uris.EndpointNeverWss` | WP8SocketClient/SocketClient.cs:20 | whatever the host and port, the string SendMessage builds never starts with `wss://`, although the gate accepts `wss` |
| `Lifecycle.SendRejectedChangesNothing` | WP8SocketClient/SocketClient.cs:26-40 | with no socket and a rejected endpoint, SendMessage returns normally and changes no field |
| `Lifecycle.SendFirstConnect` | WP8SocketClient/SocketClient.cs:42-58 | a first send whose connect succeeds leaves socket and writer set and `connected` true, even if the write then fails; the outcome is then decided by the write alone |
| `Lifecycle.SendReusesSocket` | WP8SocketClient/SocketClient.cs:26-58 | with a socket held, the result depends on neither the URI check nor the connect input, and the fields stay as they were |
| `Lifecycle.SendConnectFailure` | WP8SocketClient/SocketClient.cs:60-67 | a connect-phase failure leaves no socket, changes no other field, and is classified by the send policy |
| `Lifecycle.SendWriteFailure` | WP8SocketClient/SocketClient.cs:52-58 | a write-phase failure keeps the socket and is classified by the send policy |
| `Lifecycle.SendPropagatesIff` | WP8SocketClient/SocketClient.cs:60-80 | SendMessage propagates iff the connect phase (no socket held, endpoint accepted) or the write phase failed with a status in the send set; a failure outcome carries the status of the phase that failed; it returns `Ok` iff the endpoint was rejected or no phase failed |
| `Lifecycle.CloseCases` | WP8SocketClient/SocketClient.cs:135-153 | Close is a no-op without a socket; a successful close clears the handle; a failing one keeps it and is classified by the receive/close policy |
| `Lifecycle.ClosedIdempotent` | WP8SocketClient/SocketClient.cs:157-164 | the Closed handler clears the handle, leaves writer and `connected` alone, and a second call changes nothing |
| `Lifecycle.ReceivedChangesNothing` | WP8SocketClient/SocketClient.cs:113-133 | MessageReceived changes no field and propagates exactly a read failure with status Unknown |
| `Lifecycle.ReconnectAfterClosed` | WP8SocketClient/SocketClient.cs:26-50 | after the Closed handler ran, an accepted send with a successful connect connects anew |
| `Lifecycle.StepPreserves` | WP8SocketClient/SocketClient.cs:13-15 | every entry point keeps "socket held implies writer set" and "writer set iff connected", and never clears `connected` or the writer |
| `Lifecycle.RunPreservesConsistent` | WP8SocketClient/SocketClient.cs:42-50 | over any sequence of calls, a held socket always has its writer and the writer exists iff `connected` |
| `Lifecycle.RunConnectedMonotone` | WP8SocketClient/SocketClient.cs:15-50 | over any sequence of calls from any state, once `connected` is true it stays true, and so does the writer |
| `Lifecycle.ClosedTwiceIsOnce` | WP8SocketClient/SocketClient.cs:156-164 | two Closed events in a row, anywhere in any sequence of calls, act like one |
| `Lifecycle.ReceivingOnlyChangesNothing` | WP8SocketClient/SocketClient.cs:115-122 | any sequence of received messages leaves the state as it was |
| `WP8SocketClient.SocketClient.constructor` | WP8SocketClient/SocketClient.cs:13-15 | a new client holds no socket and no writer and is not connected |
| `WP8SocketClient.SocketClient.SendMessage` | WP8SocketClient/SocketClient.cs:18-82 | follows the SendMessage step. It reuses an existing socket and writer, and ends up holding a fresh socket and writer only after a successful first connect. A socket is created exactly when none is held and the endpoint is accepted; it starts with no close requests, and after a failed connect it is disposed and released. A rejected endpoint or a failed connect leaves writer and `connected` as they were, and a writer left from an earlier connection is never written to. A successful send commits exactly that one message on the writer |
| `WP8SocketClient.SocketClient.MessageReceived` | WP8SocketClient/SocketClient.cs:113-133 | changes no field; rethrows exactly a read failure with status Unknown, swallows every other |
| `WP8SocketClient.SocketClient.Close` | WP8SocketClient/SocketClient.cs:135-154 | follows the Close step; the held socket receives a close request with code 1000 and "Closed due to user request."; the socket is not disposed; on a failing close the field keeps the same socket |
| `WP8SocketClient.SocketClient.SocketClosed` | WP8SocketClient/SocketClient.cs:157-164 | any held socket is disposed, with no close request added, and the field becomes null; writer and `connected` are untouched |
| `WP8SocketClient.ReconnectAfterRemoteClose` | WP8SocketClient/SocketClient.cs:42-50 | a send, a remote close and another send use two different sockets; the first is disposed and the second is live |

## Left out

- The transport itself (`MessageWebSocket`, `ConnectAsync`, `DataWriter.WriteString`/`StoreAsync`, the close
  handshake) is Windows Runtime I/O. Each call is an input that returns normally or throws with a status.
- `Uri.TryCreate` and `String.Trim` are library parsing. Together they are the parameter `tryCreate`, which yields
  only the parsed scheme and fragment.
- `WebSocketError.GetStatus` maps an exception's HResult to a status. It is a foreign mapping, so the status is
  taken directly as the input. Statuses other than the four named ones are `Other(code)`.
- The UTF-8 decoding in `MessageReceived` is a library call, and its result is discarded, so only its success or
  failure is modelled.
- Setting the socket's message type to UTF-8 and subscribing the two handlers are not modelled, because they change
  no field of the client. The handlers are methods that the caller of the model invokes.
- async/await suspension is not modelled, nor any interleaving of the Closed or MessageReceived handlers with an
  in-flight SendMessage. Every entry point is treated as atomic.
- WP8SocketClient.SocketClient.SendMessage: one input covers the writer's creation together with `ConnectAsync`.
  A failure there counts as a connect-phase failure, as it does in the code. A failed `StoreAsync` is taken to
  commit nothing, and partial sends are not modelled.
- The `using` directives for the UI namespaces are not modelled, because nothing in them is used.
