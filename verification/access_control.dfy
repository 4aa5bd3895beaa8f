/** The access-control checker on top of a NATS request/reply client, and the
    configurable mock client its tests run it against. The checker forwards
    each call to the client: transport errors come back wrapped under a fixed
    context, successful answers are copied into the domain result unchanged,
    and readiness and close errors are passed through as they are. */
module Nats {
  import opened Wrappers
  import opened GoStrings

  /** Relation name to decision ("allowed", "denied", or whatever else the
      authority answers). */
  type Relations = map<GoString, GoString>

  /** The transport's answer; `None` is a nil map, distinct from an empty one. */
  type AccessCheckNATSResponse = Option<Relations>

  /** The domain-facing answer, with the same shape. */
  type AccessCheckResult = Option<Relations>

  /** A Go `error`: one made by `errors.New`, or one wrapped by `fmt.Errorf`
      with `%w` under a context text. */
  datatype Error = New(text: GoString) | Wrapped(context: GoString, cause: Error)

  /** `err.Error()`: a wrapped error reads "context: cause". */
  function Message(e: Error): GoString {
    match e
    case New(text) => text
    case Wrapped(context, cause) => context + Lit(": ") + Message(cause)
  }

  /** `errors.Unwrap`. */
  function Unwrap(e: Error): Option<Error> {
    match e
    case New(_) => None
    case Wrapped(_, cause) => Some(cause)
  }

  /** The message of a wrapped error mentions both its context and the
      message of its cause, so either can be matched with `strings.Contains`. */
  lemma WrappedMessageMentions(context: GoString, cause: Error)
    ensures Contains(Message(Wrapped(context, cause)), context)
    ensures Contains(Message(Wrapped(context, cause)), Message(cause))
  {
    ContainsInfix([], context, Lit(": ") + Message(cause));
    assert [] + context + (Lit(": ") + Message(cause)) == Message(Wrapped(context, cause));
    ContainsInfix(context + Lit(": "), Message(cause), []);
    assert context + Lit(": ") + Message(cause) + [] == Message(Wrapped(context, cause));
  }

  /** What the checker hands the client: the subject, the payload (`None` is
      a nil `[]byte`, distinct from an empty one) and the caller's timeout. */
  datatype AccessCheckNATSRequest = AccessCheckNATSRequest(subject: GoString, message: Option<GoString>, timeout: int)

  /** A Go `(AccessCheckNATSResponse, error)` pair. */
  datatype Reply = Reply(response: AccessCheckNATSResponse, err: Option<Error>)

  /** The client interface the checker is written against. */
  datatype NATSClient = NATSClient(
    checkAccess: AccessCheckNATSRequest -> Reply,
    close: () -> Option<Error>,
    isReady: () -> Option<Error>)

  // ---------------------------------------------------------------------
  // The mock client
  // ---------------------------------------------------------------------

  /** `MockNATSClient`: the values its three calls will return. */
  datatype MockNATSClient = MockNATSClient(
    checkAccessResponse: AccessCheckNATSResponse,
    checkAccessError: Option<Error>,
    closeError: Option<Error>,
    isReadyError: Option<Error>)

  /** A fresh mock: every field is nil. */
  function NewMockNATSClient(): (m: MockNATSClient)
    ensures m.checkAccessResponse.None? && m.checkAccessError.None?
    ensures m.closeError.None? && m.isReadyError.None?
  {
    MockNATSClient(None, None, None, None)
  }

  function SetCheckAccessResponse(m: MockNATSClient, response: AccessCheckNATSResponse): (m': MockNATSClient)
    ensures m'.checkAccessResponse == response
    ensures m'.checkAccessError == m.checkAccessError
    ensures m'.closeError == m.closeError && m'.isReadyError == m.isReadyError
  {
    m.(checkAccessResponse := response)
  }

  function SetCheckAccessError(m: MockNATSClient, err: Option<Error>): (m': MockNATSClient)
    ensures m'.checkAccessError == err
    ensures m'.checkAccessResponse == m.checkAccessResponse
    ensures m'.closeError == m.closeError && m'.isReadyError == m.isReadyError
  {
    m.(checkAccessError := err)
  }

  function SetCloseError(m: MockNATSClient, err: Option<Error>): (m': MockNATSClient)
    ensures m'.closeError == err
    ensures m'.checkAccessResponse == m.checkAccessResponse && m'.checkAccessError == m.checkAccessError
    ensures m'.isReadyError == m.isReadyError
  {
    m.(closeError := err)
  }

  function SetIsReadyError(m: MockNATSClient, err: Option<Error>): (m': MockNATSClient)
    ensures m'.isReadyError == err
    ensures m'.checkAccessResponse == m.checkAccessResponse && m'.checkAccessError == m.checkAccessError
    ensures m'.closeError == m.closeError
  {
    m.(isReadyError := err)
  }

  /** The mock's `CheckAccess` ignores the request: a configured error wins
      and comes with a nil response; otherwise the configured response comes
      with no error. It never returns both. */
  function MockCheckAccess(m: MockNATSClient, request: AccessCheckNATSRequest): (reply: Reply)
    ensures m.checkAccessError.Some? ==> reply.response.None? && reply.err == m.checkAccessError
    ensures m.checkAccessError.None? ==> reply.err.None? && reply.response == m.checkAccessResponse
  {
    if m.checkAccessError.Some? then Reply(None, m.checkAccessError)
    else Reply(m.checkAccessResponse, None)
  }

  /** The mock seen through the client interface: its `CheckAccess`, `Close`
      and `IsReady` answer with the configured values. */
  function AsNATSClient(m: MockNATSClient): (client: NATSClient)
    ensures forall request :: client.checkAccess(request) == MockCheckAccess(m, request)
    ensures client.close() == m.closeError
    ensures client.isReady() == m.isReadyError
  {
    NATSClient(
      request => MockCheckAccess(m, request),
      () => m.closeError,
      () => m.isReadyError)
  }

  // ---------------------------------------------------------------------
  // The checker
  // ---------------------------------------------------------------------

  datatype NATSAccessControlChecker = NATSAccessControlChecker(client: NATSClient)

  const CheckFailedContext: GoString := Lit("NATS access control check failed")

  /** `convertFromNATSResponse`: nil stays nil, and a map is copied pair by
      pair, with no key renamed, no value changed and nothing dropped. */
  function ConvertFromNATSResponse(response: AccessCheckNATSResponse): (result: AccessCheckResult)
    ensures result.None? <==> response.None?
    ensures result.Some? ==> result.value.Keys == response.value.Keys
    ensures result.Some? ==> forall k | k in result.value :: result.value[k] == response.value[k]
  {
    match response
    case None => None
    case Some(relations) => Some(map k | k in relations :: relations[k])
  }

  /** `CheckAccess`: asks the client; a client error comes back wrapped under
      "NATS access control check failed", with the client's error as its
      cause, and a client answer comes back as the domain result. The subject,
      data and timeout all go to the client in its request, and reach the
      outcome only through the client's answer; the checker validates none of
      them itself. */
  function CheckAccess(c: NATSAccessControlChecker, subject: GoString, data: Option<GoString>, timeout: int)
    : (r: Result<AccessCheckResult, Error>)
    ensures var reply := c.client.checkAccess(AccessCheckNATSRequest(subject, data, timeout));
      && (r.Failure? <==> reply.err.Some?)
      && (r.Failure? ==> Unwrap(r.error) == reply.err)
      && (r.Failure? ==> Contains(Message(r.error), CheckFailedContext))
      && (r.Failure? ==> Contains(Message(r.error), Message(reply.err.value)))
      && (r.Success? ==> r.value == reply.response)
  {
    var reply := c.client.checkAccess(AccessCheckNATSRequest(subject, data, timeout));
    match reply.err
    case Some(cause) =>
      WrappedMessageMentions(CheckFailedContext, cause);
      Failure(Wrapped(CheckFailedContext, cause))
    case None =>
      var result := ConvertFromNATSResponse(reply.response);
      assert result.Some? ==> result.value == reply.response.value;
      Success(result)
  }

  /** `Close`: the client's close error, as it is. */
  function Close(c: NATSAccessControlChecker): (err: Option<Error>)
    ensures err == c.client.close()
  {
    c.client.close()
  }

  /** `IsReady`: the client's readiness error, as it is. */
  function IsReady(c: NATSAccessControlChecker): (err: Option<Error>)
    ensures err == c.client.isReady()
  {
    c.client.isReady()
  }

  // ---------------------------------------------------------------------
  // The checker over the mock, as its tests drive it
  // ---------------------------------------------------------------------

  /** Nil and empty answers survive conversion and stay apart. */
  lemma NilAndEmptyStayDistinct()
    ensures ConvertFromNATSResponse(None) == None
    ensures ConvertFromNATSResponse(Some(map[])) == Some(map[])
  {
  }

  /** A mock configured with an error makes the checker fail with a message
      naming the check and the mock's error, for any request. */
  lemma CheckAccessWrapsMockError(response: AccessCheckNATSResponse, err: Error, subject: GoString, data: Option<GoString>, timeout: int)
    ensures var mock := SetCheckAccessError(SetCheckAccessResponse(NewMockNATSClient(), response), Some(err));
      var r := CheckAccess(NATSAccessControlChecker(AsNATSClient(mock)), subject, data, timeout);
      && r.Failure?
      && Contains(Message(r.error), CheckFailedContext)
      && Contains(Message(r.error), Message(err))
  {
  }

  /** A mock configured with an answer and no error makes the checker return
      that answer, for any subject, data and timeout (zero included). */
  lemma CheckAccessPassesMockResponse(response: AccessCheckNATSResponse, subject: GoString, data: Option<GoString>, timeout: int)
    ensures var mock := SetCheckAccessResponse(NewMockNATSClient(), response);
      CheckAccess(NATSAccessControlChecker(AsNATSClient(mock)), subject, data, timeout) == Success(response)
  {
  }

  /** The checker's `Close` reports exactly the mock's close error. */
  lemma CloseForwardsMock(closeErr: Option<Error>)
    ensures var mock := SetCloseError(NewMockNATSClient(), closeErr);
      Close(NATSAccessControlChecker(AsNATSClient(mock))) == closeErr
  {
  }

  /** The checker's `IsReady` reports exactly the mock's readiness error. */
  lemma IsReadyForwardsMock(readyErr: Option<Error>)
    ensures var mock := SetIsReadyError(NewMockNATSClient(), readyErr);
      IsReady(NATSAccessControlChecker(AsNATSClient(mock))) == readyErr
  {
  }
}
