/**
  The connection lifecycle of SocketClient as a pure state machine.

  A Shape records which of the client's three fields are set: whether the
  socket handle is non-null, whether the writer is non-null, and the
  connected flag. Each entry point of the client is a step from one shape to
  the next, together with the way the entry point ends. The transport's
  behaviour is part of each step's input. The class in socket_client.dfy is
  proved to follow these steps; the lemmas here state what the steps promise,
  alone and over any sequence of calls.
 */
module Lifecycle {
  import opened ErrorPolicy
  import opened Uris

  datatype Shape = Shape(hasSocket: bool, hasWriter: bool, connected: bool)

  /** A freshly constructed client. */
  const Initial := Shape(false, false, false)

  datatype Transition = Transition(next: Shape, outcome: Outcome)

  /** What every reachable shape satisfies: a socket is only ever held
      together with its writer, and the writer exists exactly once the
      client has connected. */
  predicate Consistent(s: Shape) {
    (s.hasSocket ==> s.hasWriter) && (s.hasWriter <==> s.connected)
  }

  /** The write phase of SendMessage: WriteString and StoreAsync on the
      writer. A failure is classified, and the handle is left alone. */
  function WritePhase(s: Shape, write: TransportResult): Transition {
    match write
    case Success => Transition(s, Ok)
    case Failure(status) => Transition(s, SendFailureOutcome(status))
  }

  /** SendMessage. `accepted` is the verdict of TryGetUri on the endpoint
      string; it is consulted only when no socket exists. */
  function SendStep(s: Shape, accepted: bool, connect: TransportResult, write: TransportResult): Transition {
    if s.hasSocket then
      WritePhase(s, write)
    else if !accepted then
      Transition(s, Ok)
    else
      match connect
      // The new socket is disposed and the field nulled again; the writer
      // and the flag keep whatever an earlier connection left there.
      case Failure(status) => Transition(s, SendFailureOutcome(status))
      case Success => WritePhase(Shape(true, true, true), write)
  }

  /** Close: a no-op without a socket; otherwise the handle is released only
      when the close call returns normally. */
  function CloseStep(s: Shape, close: TransportResult): Transition {
    if !s.hasSocket then
      Transition(s, Ok)
    else
      match close
      case Success => Transition(s.(hasSocket := false), Ok)
      case Failure(status) => Transition(s, ReceiveCloseFailureOutcome(status))
  }

  /** The Closed event handler: disposes and releases any handle. */
  function ClosedStep(s: Shape): Transition {
    Transition(s.(hasSocket := false), Ok)
  }

  /** The MessageReceived event handler: the decoded text is dropped, and a
      read failure is classified. */
  function ReceivedStep(s: Shape, read: TransportResult): Transition {
    match read
    case Success => Transition(s, Ok)
    case Failure(status) => Transition(s, ReceiveCloseFailureOutcome(status))
  }

  /** One call of an entry point, with what the transport does during it. */
  datatype Event =
    | SendMessage(hostName: string, portNumber: string, tryCreate: UriParser,
                  connect: TransportResult, write: TransportResult)
    | Close(close: TransportResult)
    | SocketClosed
    | MessageReceived(read: TransportResult)

  function Step(s: Shape, e: Event): Transition {
    match e
    case SendMessage(host, port, tryCreate, connect, write) =>
      SendStep(s, TryGetUri(EndpointString(host, port), tryCreate).0, connect, write)
    case Close(close) => CloseStep(s, close)
    case SocketClosed => ClosedStep(s)
    case MessageReceived(read) => ReceivedStep(s, read)
  }

  /** The shape after a sequence of calls, each treated as atomic. */
  function Run(s: Shape, events: seq<Event>): Shape
    decreases |events|
  {
    if events == [] then s else Run(Step(s, events[0]).next, events[1..])
  }

  // ---------------------------------------------------------------------
  // SendMessage

  /** With no socket and a rejected endpoint, SendMessage returns normally
      and changes nothing. */
  lemma SendRejectedChangesNothing(s: Shape, connect: TransportResult, write: TransportResult)
    requires !s.hasSocket
    ensures SendStep(s, false, connect, write) == Transition(s, Ok)
  {
  }

  /** A first send whose connect succeeds leaves the socket and the writer
      set and the client connected, whether or not the write then fails. */
  lemma SendFirstConnect(s: Shape, write: TransportResult)
    requires !s.hasSocket
    ensures SendStep(s, true, Success, write).next == Shape(true, true, true)
    ensures SendStep(s, true, Success, write).outcome ==
            if write.Success? then Ok else SendFailureOutcome(write.status)
  {
  }

  /** With a socket already held, SendMessage neither validates the URI nor
      connects: the result does not depend on either, and the shape stays. */
  lemma SendReusesSocket(s: Shape, a1: bool, a2: bool, c1: TransportResult, c2: TransportResult,
                         write: TransportResult)
    requires s.hasSocket
    ensures SendStep(s, a1, c1, write) == SendStep(s, a2, c2, write)
    ensures SendStep(s, a1, c1, write).next == s
  {
  }

  /** A connect-phase failure leaves no socket behind, and it is classified
      by the send policy. */
  lemma SendConnectFailure(s: Shape, status: WebErrorStatus, write: TransportResult)
    requires !s.hasSocket
    ensures SendStep(s, true, Failure(status), write) == Transition(s, SendFailureOutcome(status))
    ensures !SendStep(s, true, Failure(status), write).next.hasSocket
  {
  }

  /** A write-phase failure leaves the handle as it is, and it is classified
      by the same send policy. */
  lemma SendWriteFailure(s: Shape, accepted: bool, connect: TransportResult, status: WebErrorStatus)
    requires s.hasSocket || (accepted && connect.Success?)
    ensures SendStep(s, accepted, connect, Failure(status)).next.hasSocket
    ensures SendStep(s, accepted, connect, Failure(status)).outcome == SendFailureOutcome(status)
  {
  }

  /** SendMessage rethrows exactly when a phase failed with one of the four
      send statuses; every other failure is swallowed. */
  lemma SendPropagatesIff(s: Shape, accepted: bool, connect: TransportResult, write: TransportResult)
    ensures SendStep(s, accepted, connect, write).outcome.Propagated? <==>
              (!s.hasSocket && accepted && connect.Failure? && connect.status in SendRethrown)
              || ((s.hasSocket || (accepted && connect.Success?)) && write.Failure? && write.status in SendRethrown)
    // A failure that ends the call carries the status of the phase that failed.
    ensures var o := SendStep(s, accepted, connect, write).outcome;
            !o.Ok? ==> if !s.hasSocket && connect.Failure? then o.status == connect.status
                       else write.Failure? && o.status == write.status
    ensures var o := SendStep(s, accepted, connect, write).outcome;
            o.Ok? <==> (!s.hasSocket && !accepted) || ((s.hasSocket || connect.Success?) && write.Success?)
  {
  }

  // ---------------------------------------------------------------------
  // Close, Closed and MessageReceived

  /** Close: no socket means no change; a successful close releases the
      handle; a failing close keeps it and is classified by the
      receive/close policy. */
  lemma CloseCases(s: Shape, close: TransportResult)
    ensures !s.hasSocket ==> CloseStep(s, close) == Transition(s, Ok)
    ensures s.hasSocket && close.Success? ==> CloseStep(s, close) == Transition(s.(hasSocket := false), Ok)
    ensures s.hasSocket && close.Failure? ==>
              CloseStep(s, close) == Transition(s, ReceiveCloseFailureOutcome(close.status))
  {
  }

  /** The Closed handler always releases the handle, touches nothing else,
      and a second call changes nothing. */
  lemma ClosedIdempotent(s: Shape)
    ensures ClosedStep(s).next == Shape(false, s.hasWriter, s.connected)
    ensures ClosedStep(ClosedStep(s).next) == ClosedStep(s)
  {
  }

  /** MessageReceived never changes the state. */
  lemma ReceivedChangesNothing(s: Shape, read: TransportResult)
    ensures ReceivedStep(s, read).next == s
    ensures ReceivedStep(s, read).outcome.Propagated? <==> read == Failure(Unknown)
  {
  }

  /** After the remote end closes, an accepted send connects afresh. */
  lemma ReconnectAfterClosed(s: Shape, write: TransportResult)
    ensures SendStep(ClosedStep(s).next, true, Success, write).next == Shape(true, true, true)
  {
  }

  // ---------------------------------------------------------------------
  // Invariants of every step and of every sequence of calls

  lemma StepPreserves(s: Shape, e: Event)
    ensures Consistent(s) ==> Consistent(Step(s, e).next)
    ensures s.connected ==> Step(s, e).next.connected
    ensures s.hasWriter ==> Step(s, e).next.hasWriter
  {
  }

  lemma {:induction false} RunAppend(s: Shape, a: seq<Event>, b: seq<Event>)
    ensures Run(s, a + b) == Run(Run(s, a), b)
    decreases |a|
  {
    if a == [] {
      assert a + b == b;
    } else {
      assert (a + b)[1..] == a[1..] + b;
      RunAppend(Step(s, a[0]).next, a[1..], b);
    }
  }

  /** Every sequence of calls from a consistent shape ends in a consistent
      shape; in particular every shape reachable from a new client is. */
  lemma {:induction false} RunPreservesConsistent(s: Shape, events: seq<Event>)
    requires Consistent(s)
    ensures Consistent(Run(s, events))
    decreases |events|
  {
    if events != [] {
      StepPreserves(s, events[0]);
      RunPreservesConsistent(Step(s, events[0]).next, events[1..]);
    }
  }

  /** connected is never reset: once true, it stays true over any sequence
      of calls, and so does the writer. */
  lemma {:induction false} RunConnectedMonotone(s: Shape, events: seq<Event>)
    ensures s.connected ==> Run(s, events).connected
    ensures s.hasWriter ==> Run(s, events).hasWriter
    decreases |events|
  {
    if events != [] {
      StepPreserves(s, events[0]);
      RunConnectedMonotone(Step(s, events[0]).next, events[1..]);
    }
  }

  /** Delivering the Closed event twice in a row, at any point of any
      sequence of calls, is the same as delivering it once. */
  lemma {:induction false} ClosedTwiceIsOnce(s: Shape, before: seq<Event>, after: seq<Event>)
    ensures Run(s, before + [SocketClosed, SocketClosed] + after) == Run(s, before + [SocketClosed] + after)
  {
    var mid := Run(s, before);
    RunAppend(s, before + [SocketClosed, SocketClosed], after);
    RunAppend(s, before, [SocketClosed, SocketClosed]);
    RunAppend(s, before + [SocketClosed], after);
    RunAppend(s, before, [SocketClosed]);
    assert Run(mid, [SocketClosed, SocketClosed]) == Run(mid, [SocketClosed]) by {
      assert [SocketClosed, SocketClosed][1..] == [SocketClosed];
      assert [SocketClosed][1..] == [];
      ClosedIdempotent(mid);
    }
  }

  /** A sequence of received messages leaves the state as it was. */
  lemma {:induction false} ReceivingOnlyChangesNothing(s: Shape, events: seq<Event>)
    requires forall i :: 0 <= i < |events| ==> events[i].MessageReceived?
    ensures Run(s, events) == s
    decreases |events|
  {
    if events != [] {
      ReceivingOnlyChangesNothing(Step(s, events[0]).next, events[1..]);
    }
  }
}
