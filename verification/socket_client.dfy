/**
  The SocketClient class and the two transport objects it holds.

  The transport is not modelled: every call into it is represented by an
  input saying whether it returned normally or threw with a given status.
  What the client does to its own three fields, and to the socket and
  writer objects it owns, is modelled in place; each method is proved to
  follow the corresponding step of the Lifecycle state machine.
 */
module WP8SocketClient {
  import opened ErrorPolicy
  import opened Uris
  import Lifecycle

  /** The close code and reason sent on a user-requested close. */
  const NormalClosure: nat := 1000
  const CloseReason: string := "Closed due to user request."

  datatype CloseRequest = CloseRequest(code: nat, reason: string)

  /** The platform's message socket, reduced to what the client does with
      it: dispose it and ask it to close. */
  class MessageWebSocket {
    var disposed: bool
    var closeRequests: seq<CloseRequest>

    constructor ()
      ensures !disposed && closeRequests == []
    {
      disposed := false;
      closeRequests := [];
    }

    method Dispose()
      modifies this
      ensures disposed && closeRequests == old(closeRequests)
    {
      disposed := true;
    }

    /** Records the close request; whether the call then throws is the
        caller's input. */
    method Close(code: nat, reason: string)
      modifies this
      ensures closeRequests == old(closeRequests) + [CloseRequest(code, reason)]
      ensures disposed == old(disposed)
    {
      closeRequests := closeRequests + [CloseRequest(code, reason)];
    }
  }

  /** A writer bound to one socket's output stream. `committed` holds the
      messages that were written and stored as complete messages. */
  class DataWriter {
    const socket: MessageWebSocket
    var committed: seq<string>

    constructor (socket: MessageWebSocket)
      ensures this.socket == socket && committed == []
    {
      this.socket := socket;
      committed := [];
    }

    /** WriteString followed by a successful StoreAsync. */
    method Store(text: string)
      modifies this
      ensures committed == old(committed) + [text]
    {
      committed := committed + [text];
    }
  }

  class SocketClient {
    var messageWebSocket: MessageWebSocket?
    var messageWriter: DataWriter?
    var connected: bool

    /** The object invariant: a held socket is live and has its writer
        bound to it, and the writer exists exactly once connected is set. */
    ghost predicate Valid()
      reads this, messageWebSocket
    {
      (messageWebSocket != null ==>
         messageWriter != null && messageWriter.socket == messageWebSocket && !messageWebSocket.disposed)
      && (messageWriter != null <==> connected)
    }

    /** Which fields are set, as the Lifecycle state machine sees them. */
    function Shape(): Lifecycle.Shape
      reads this
    {
      Lifecycle.Shape(messageWebSocket != null, messageWriter != null, connected)
    }

    constructor ()
      ensures Valid() && Shape() == Lifecycle.Initial
    {
      messageWebSocket := null;
      messageWriter := null;
      connected := false;
    }

    /** SendMessage: on the first call (no socket) the endpoint is checked
        and, if accepted, a socket is created and connected and its writer
        made; then the text is written and stored. `connect` is what the
        connect phase (ConnectAsync and the writer's creation) does, `write`
        what WriteString and StoreAsync do. `created` names the socket this
        call creates, if any, so that its fate can be stated after the field
        has let go of it. */
    method SendMessage(messageText: string, hostName: string, portNumber: string,
                       tryCreate: UriParser, connect: TransportResult, write: TransportResult)
      returns (outcome: Outcome, ghost created: MessageWebSocket?)
      requires Valid()
      modifies this, messageWriter
      ensures Valid()
      ensures var t := Lifecycle.Step(old(Shape()), Lifecycle.SendMessage(hostName, portNumber, tryCreate, connect, write));
              Shape() == t.next && outcome == t.outcome
      // An existing socket is reused: no new socket, no new writer.
      ensures old(messageWebSocket) != null ==>
                messageWebSocket == old(messageWebSocket) && messageWriter == old(messageWriter)
      // A new connection brings a new socket and a new writer bound to it.
      ensures old(messageWebSocket) == null && messageWebSocket != null ==>
                fresh(messageWebSocket) && fresh(messageWriter)
      // Otherwise (rejected endpoint or failed connect) the fields are as before.
      ensures old(messageWebSocket) == null && messageWebSocket == null ==>
                messageWriter == old(messageWriter) && connected == old(connected)
      // One successful send commits exactly one message on the writer.
      ensures messageWebSocket != null && old(messageWebSocket) != null ==>
                messageWriter.committed == old(messageWriter.committed) + (if write.Success? then [messageText] else [])
      ensures messageWebSocket != null && old(messageWebSocket) == null ==>
                messageWriter.committed == (if write.Success? then [messageText] else [])
      ensures messageWebSocket == null && old(messageWriter) != null ==>
                messageWriter.committed == old(messageWriter.committed)
      // A writer left over from an earlier connection is not written to.
      ensures old(messageWebSocket) == null && old(messageWriter) != null ==>
                old(messageWriter).committed == old(messageWriter.committed)
      // A socket is created exactly when none is held and the endpoint is accepted.
      ensures created != null <==>
                old(messageWebSocket) == null && TryGetUri(EndpointString(hostName, portNumber), tryCreate).0
      ensures created != null ==> fresh(created) && created.closeRequests == []
      // After a successful connect the new socket is held and live ...
      ensures created != null && connect.Success? ==> messageWebSocket == created && !created.disposed
      // ... and after a failed connect it is disposed and released.
      ensures created != null && connect.Failure? ==> messageWebSocket == null && created.disposed
    {
      created := null;
      var websocketUri := EndpointString(hostName, portNumber);
      var connecting := true;
      var failure: Option<WebErrorStatus> := None;

      if messageWebSocket == null {
        var checked := TryGetUri(websocketUri, tryCreate);
        if !checked.0 {
          return Ok, null;
        }
        messageWebSocket := new MessageWebSocket();
        created := messageWebSocket;
        match connect {
          case Success =>
            messageWriter := new DataWriter(messageWebSocket);
            connected := true;
          case Failure(status) =>
            failure := Some(status);
        }
      }
      if failure.None? {
        connecting := false;
        match write {
          case Success => messageWriter.Store(messageText);
          case Failure(status) => failure := Some(status);
        }
      }

      if failure.None? {
        return Ok, created;
      }
      // The catch block.
      if connecting && messageWebSocket != null {
        messageWebSocket.Dispose();
        messageWebSocket := null;
      }
      outcome := SendFailureOutcome(failure.value);
    }

    /** The MessageReceived handler: the text read from the message is
        dropped; a read failure is rethrown only when its status is Unknown.
        It changes no field. */
    method MessageReceived(read: TransportResult) returns (outcome: Outcome)
      ensures outcome == Lifecycle.ReceivedStep(Shape(), read).outcome
      ensures outcome.Propagated? <==> read == Failure(Unknown)
    {
      match read {
        case Success =>
          outcome := Ok;
        case Failure(status) =>
          outcome := ReceiveCloseFailureOutcome(status);
      }
    }

    /** Close: without a socket nothing happens; otherwise the socket is
        asked to close with code 1000, and the field is cleared only when
        that call returns normally. */
    method Close(close: TransportResult) returns (outcome: Outcome)
      requires Valid()
      modifies this, messageWebSocket
      ensures Valid()
      ensures var t := Lifecycle.Step(old(Shape()), Lifecycle.Close(close));
              Shape() == t.next && outcome == t.outcome
      ensures messageWriter == old(messageWriter) && connected == old(connected)
      ensures old(messageWebSocket) != null ==>
                old(messageWebSocket).closeRequests ==
                  old(messageWebSocket.closeRequests) + [CloseRequest(NormalClosure, CloseReason)]
      ensures old(messageWebSocket) != null ==> old(messageWebSocket).disposed == old(messageWebSocket.disposed)
      ensures close.Failure? ==> messageWebSocket == old(messageWebSocket)
    {
      outcome := Ok;
      if messageWebSocket != null {
        messageWebSocket.Close(NormalClosure, CloseReason);
        match close {
          case Success =>
            messageWebSocket := null;
          case Failure(status) =>
            outcome := ReceiveCloseFailureOutcome(status);
        }
      }
    }

    /** The Closed handler, raised by the remote end or by a local close:
        any held socket is disposed and released. */
    method SocketClosed()
      requires Valid()
      modifies this, messageWebSocket
      ensures Valid()
      ensures Shape() == Lifecycle.Step(old(Shape()), Lifecycle.SocketClosed).next
      ensures messageWebSocket == null
      ensures messageWriter == old(messageWriter) && connected == old(connected)
      ensures old(messageWebSocket) != null ==>
                old(messageWebSocket).disposed && old(messageWebSocket).closeRequests == old(messageWebSocket.closeRequests)
    {
      if messageWebSocket != null {
        messageWebSocket.Dispose();
        messageWebSocket := null;
      }
    }
  }

  /** A client of the class: after the remote end closes a connection, the
      next send opens a different socket, and the first one stays disposed. */
  method ReconnectAfterRemoteClose(tryCreate: UriParser) returns (first: MessageWebSocket, second: MessageWebSocket)
    requires tryCreate(EndpointString("example.com", "80")) == Some(Uri("ws", None))
    ensures first != second && first.disposed && !second.disposed
  {
    var client := new SocketClient();
    var o1;
    ghost var c1;
    o1, c1 := client.SendMessage("hello", "example.com", "80", tryCreate, Success, Success);
    first := client.messageWebSocket;
    assert client.messageWriter.committed == ["hello"];
    client.SocketClosed();
    var o2;
    ghost var c2;
    o2, c2 := client.SendMessage("again", "example.com", "80", tryCreate, Success, Success);
    second := client.messageWebSocket;
    assert o1 == Ok && o2 == Ok;
  }
}
