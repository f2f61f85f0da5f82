/**
  The error-classification policies of the socket client.

  Every failure the transport reports is reduced to a coarse WebErrorStatus.
  Each call site then decides whether the exception is rethrown, so that it
  leaves the entry point, or swallowed. The send path (connect and write)
  rethrows a fixed set of four statuses; the receive and close paths rethrow
  only Unknown.
 */
module ErrorPolicy {

  /** The statuses the client distinguishes. Every other member of the
      platform's status enumeration falls into Other, identified by its
      numeric value; the values of the four named members never occur
      there. */
  datatype WebErrorStatus =
    | Unknown
    | CannotConnect
    | NotFound
    | RequestTimeout
    | Other(code: int)

  /** What a transport call did: it returned normally or it threw, with the
      status the platform derives from the exception. */
  datatype TransportResult = Success | Failure(status: WebErrorStatus)

  /** How an entry point of the client ends: normally without any failure,
      normally after swallowing a failure, or with the exception rethrown so
      that it leaves the entry point. */
  datatype Outcome = Ok | Swallowed(status: WebErrorStatus) | Propagated(status: WebErrorStatus)

  /** The statuses the send path rethrows. */
  const SendRethrown: set<WebErrorStatus> := {CannotConnect, NotFound, RequestTimeout, Unknown}

  /** The switch in the catch block of SendMessage. */
  function SendFailureOutcome(status: WebErrorStatus): (o: Outcome)
    ensures !o.Ok? && o.status == status
    ensures o.Propagated? <==> status in SendRethrown
    ensures o.Swallowed? <==> status !in SendRethrown
  {
    match status
    case CannotConnect | NotFound | RequestTimeout | Unknown => Propagated(status)
    case Other(_) => Swallowed(status)
  }

  /** The test in the catch blocks of MessageReceived and Close. */
  function ReceiveCloseFailureOutcome(status: WebErrorStatus): (o: Outcome)
    ensures !o.Ok? && o.status == status
    ensures o.Propagated? <==> status.Unknown?
    ensures o.Propagated? ==> SendFailureOutcome(status).Propagated?
  {
    if status == Unknown then Propagated(status) else Swallowed(status)
  }

  /** The receive/close policy is strictly narrower than the send policy:
      the statuses only the send path rethrows are exactly the three named
      connection problems. */
  lemma SendOnlyRethrown(status: WebErrorStatus)
    ensures SendFailureOutcome(status).Propagated? && ReceiveCloseFailureOutcome(status).Swallowed?
            <==> status in {CannotConnect, NotFound, RequestTimeout}
  {
  }
}
