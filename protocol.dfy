/**
 * The protocol request (a cloneable HttpRequestMessage with a parameter bag),
 * the abstract helpers the builders call (client-credential population and
 * Prepare), the typed responses, and the shared prepare / visit / send
 * pipeline with its try/catch around the send.
 */
module Protocol {
  import opened Wrappers
  import opened OidcConstants
  import opened Parameters
  import opened Http

  /** The client-authentication settings of a request. */
  datatype Credentials = Credentials(clientId: Option<string>, clientSecret: Option<string>)

  /** A snapshot of a protocol request: Address, credentials, Parameters and its message part. */
  datatype RequestState = RequestState(
    address: Option<string>,
    credentials: Credentials,
    parameters: Bag,
    message: Message)

  // ---------------------------------------------------------------------------
  // ClientCredentialsHelper.PopulateClientCredentials, implemented outside these
  // classes: an arbitrary caller-chosen function, of which only what the call
  // sites rely on is kept.

  /** What the credential step leaves behind: bag, Authorization header (None: untouched), and a failure. */
  datatype Placement = Placement(parameters: Bag, authorization: Option<Authorization>, failure: Option<string>)

  type Populate = (Credentials, Bag) -> Placement

  /** `before` on every non-credential key, `after` on every credential key. */
  function KeepNonCredential(before: Bag, after: Bag): (r: Bag)
    ensures forall k :: k !in CredentialParameters ==> (k in r <==> k in before)
    ensures forall k :: k in before && k !in CredentialParameters ==> r[k] == before[k]
    ensures forall k :: k in CredentialParameters ==> (k in r <==> k in after)
    ensures forall k :: k in after && k in CredentialParameters ==> r[k] == after[k]
  {
    map k | k in (before.Keys - CredentialParameters) + (after.Keys * CredentialParameters) ::
      if k in CredentialParameters then after[k] else before[k]
  }

  /** `bag` holds exactly the credential entries of `placed`. */
  predicate CredentialsFrom(bag: Bag, placed: Bag) {
    forall k :: k in CredentialParameters ==> (k in bag <==> k in placed) && (k in placed ==> bag[k] == placed[k])
  }

  /** The Authorization header after the credential step: the helper's, if it set one. */
  function PlacedAuthorization(q: Placement, authorization: Option<Authorization>): Option<Authorization> {
    if q.authorization.Some? then q.authorization else authorization
  }

  /** The effect of the credential step on a bag and an Authorization header. */
  function CredentialStep(populate: Populate, credentials: Credentials, bag: Bag, authorization: Option<Authorization>): (p: Placement)
    ensures forall k :: k !in CredentialParameters ==> (k in p.parameters <==> k in bag)
    ensures forall k :: k in bag && k !in CredentialParameters ==> p.parameters[k] == bag[k]
    // the helper's credential entries and header are what the request ends with
    ensures CredentialsFrom(p.parameters, populate(credentials, bag).parameters)
    ensures populate(credentials, bag).authorization.Some? ==> p.authorization == populate(credentials, bag).authorization
    ensures populate(credentials, bag).authorization.None? ==> p.authorization == authorization
    ensures p.failure == populate(credentials, bag).failure
  {
    var q := populate(credentials, bag);
    Placement(KeepNonCredential(bag, q.parameters), PlacedAuthorization(q, authorization), q.failure)
  }

  // ---------------------------------------------------------------------------
  // ProtocolRequest.Prepare, implemented outside these classes: it finalises
  // URI, headers, credentials and content of the request it is called on, or
  // throws. The model keeps only that it does not change the HTTP method.

  type Prepare = RequestState -> Result<Message, string>

  function PrepareStep(prepare: Prepare, state: RequestState): (r: Result<Message, ConfigError>)
    ensures r.Ok? <==> prepare(state).Ok?
    ensures r.Ok? ==> r.value.verb == state.message.verb
    ensures r.Ok? ==> r.value == prepare(state).value.(verb := state.message.verb)
    ensures r.Err? ==> r.error == PrepareFailed(prepare(state).error)
  {
    match prepare(state)
    case Ok(m) => Ok(m.(verb := state.message.verb))
    case Err(reason) => Err(PrepareFailed(reason))
  }

  /**
   * The caller's request visitor: it may rewrite the outgoing message in any
   * way, or throw (a faulted Task), which escapes since it precedes the try.
   */
  type Visitor = Message -> Result<Message, string>

  // ---------------------------------------------------------------------------
  // Responses. FromException and FromHttpResponseAsync are kept as
  // uninterpreted constructors: their classification is not part of this model.

  datatype ResponseKind =
    | TokenResponse
    | TokenIntrospectionResponse
    | TokenRevocationResponse
    | UserInfoResponse
    | DeviceAuthorizationResponse

  datatype ProtocolResponse =
    | FromException(kind: ResponseKind, exception: TransportException)
    | FromHttpResponse(kind: ResponseKind, response: HttpResponse)

  /** The try/catch around one send: a thrown exception becomes a response, never escapes. */
  function FromTransport(kind: ResponseKind, outcome: TransportOutcome): (r: ProtocolResponse)
    ensures r.kind == kind
    ensures r.FromException? <==> outcome.Threw?
    ensures outcome.Threw? ==> r.exception == outcome.exception
    ensures outcome.Received? ==> r.response == outcome.response
  {
    match outcome
    case Threw(e) => FromException(kind, e)
    case Received(response) => FromHttpResponse(kind, response)
  }

  /** What happened on the way out, in order. */
  datatype Step = Prepared | Visited | Sent(request: Message)

  /** A public call either raises a configuration error or returns a typed response. */
  datatype Call = Escaped(error: ConfigError) | Returned(response: ProtocolResponse)

  datatype Run = Run(steps: seq<Step>, result: Call) {
    /** The message handed to the transport, if the call got that far. */
    predicate ReachedNetwork() {
      exists i :: 0 <= i < |steps| && steps[i].Sent?
    }
  }

  /** Send one finished message and normalise the outcome (the try/catch of every client call). */
  function SendRun(kind: ResponseKind, message: Message, send: Transport): (run: Run)
    ensures run.steps == [Sent(message)]
    ensures run.result.Returned? && run.result.response.kind == kind
    ensures send(message).Threw? <==> run.result.response.FromException?
  {
    Run([Sent(message)], Returned(FromTransport(kind, send(message))))
  }

  /** A message built on a fresh HttpRequestMessage is sent; a build exception escapes before the send. */
  function BuiltRun(kind: ResponseKind, message: Message, thrown: Option<ConfigError>, send: Transport): (run: Run)
    ensures thrown.Some? ==> run == Run([], Escaped(thrown.value)) && !run.ReachedNetwork()
    ensures thrown.None? ==> run == SendRun(kind, message, send)
  {
    if thrown.Some? then Run([], Escaped(thrown.value)) else SendRun(kind, message, send)
  }

  /**
   * Prepare, then the visitor when there is one, then the send. A failure of
   * Prepare or of the visitor escapes because both precede the try; a
   * transport exception does not.
   */
  function DispatchRun(kind: ResponseKind, state: RequestState, prepare: Prepare, visitor: Option<Visitor>, send: Transport): (run: Run)
    // Prepare's failure escapes before the visitor and the send
    ensures prepare(state).Err? ==> run == Run([Prepared], Escaped(PrepareFailed(prepare(state).error)))
    ensures prepare(state).Ok? ==>
      var prepared := prepare(state).value.(verb := state.message.verb);
      // the visitor sees the prepared clone; its failure escapes before the send
      && (visitor.Some? && visitor.value(prepared).Err? ==>
            run == Run([Prepared, Visited], Escaped(VisitorFailed(visitor.value(prepared).error))))
      // otherwise the message sent is the visitor's result, or the prepared clone when there is no visitor
      && (visitor.None? || visitor.value(prepared).Ok? ==>
            && run.result.Returned?
            && |run.steps| == (if visitor.Some? then 3 else 2)
            && run.steps[|run.steps| - 1].Sent?
            && run.steps[|run.steps| - 1].request == (if visitor.Some? then visitor.value(prepared).value else prepared))
    ensures |run.steps| > 0 && run.steps[0] == Prepared
    // the visitor runs exactly once when there is one, and never otherwise
    ensures prepare(state).Ok? && visitor.Some? ==> |run.steps| > 1 && run.steps[1] == Visited
    ensures forall i :: 0 <= i < |run.steps| && run.steps[i] == Visited ==> visitor.Some? && i == 1
    ensures run.result.Returned? ==>
      var sent := run.steps[|run.steps| - 1].request;
      && run.result.response == FromTransport(kind, send(sent))
      && (visitor.None? ==> sent.verb == state.message.verb)
  {
    match PrepareStep(prepare, state)
    case Err(e) => Run([Prepared], Escaped(e))
    case Ok(prepared) =>
      if visitor.None? then
        Run([Prepared, Sent(prepared)], Returned(FromTransport(kind, send(prepared))))
      else
        match visitor.value(prepared)
        case Err(reason) => Run([Prepared, Visited], Escaped(VisitorFailed(reason)))
        case Ok(visited) => Run([Prepared, Visited, Sent(visited)], Returned(FromTransport(kind, send(visited))))
  }

  /**
   * The error routing every client call promises: the call escapes exactly
   * when nothing reached the network, and whatever was sent last comes back
   * as a response of the call's kind, FromException when the send threw.
   */
  predicate RoutesErrors(run: Run, kind: ResponseKind, send: Transport) {
    && (run.result.Escaped? <==> !run.ReachedNetwork())
    && (run.result.Returned? ==>
          && |run.steps| > 0 && run.steps[|run.steps| - 1].Sent?
          && run.result.response == FromTransport(kind, send(run.steps[|run.steps| - 1].request)))
  }

  lemma BuiltRoutesErrors(kind: ResponseKind, message: Message, thrown: Option<ConfigError>, send: Transport)
    ensures RoutesErrors(BuiltRun(kind, message, thrown, send), kind, send)
  {
    var run := BuiltRun(kind, message, thrown, send);
    if thrown.None? {
      assert run.steps[0].Sent?;
    }
  }

  lemma DispatchRoutesErrors(kind: ResponseKind, state: RequestState, prepare: Prepare, visitor: Option<Visitor>, send: Transport)
    ensures RoutesErrors(DispatchRun(kind, state, prepare, visitor, send), kind, send)
  {
    var run := DispatchRun(kind, state, prepare, visitor, send);
    if run.result.Returned? {
      assert run.steps[|run.steps| - 1].Sent?;
    }
  }

  /**
   * A protocol request. In the source it derives from HttpRequestMessage; `http`
   * is that inherited part. `parameters` is a separate object: it can be
   * replaced, and it can be shared with the caller's dictionary.
   */
  class ProtocolRequest {
    var address: Option<string>
    var credentials: Credentials
    var parameters: ParameterBag
    const http: HttpRequest

    constructor (address: Option<string>, credentials: Credentials, parameters: ParameterBag)
      ensures this.address == address && this.credentials == credentials && this.parameters == parameters
      ensures fresh(http) && http.Wire() == EmptyMessage
    {
      this.address := address;
      this.credentials := credentials;
      this.parameters := parameters;
      http := new HttpRequest();
    }

    function State(): RequestState
      reads this, parameters, http
    {
      RequestState(address, credentials, parameters.entries, http.Wire())
    }

    /** A deep copy: new request, new bag with the same entries, new message part. */
    method Clone() returns (clone: ProtocolRequest)
      ensures fresh(clone) && fresh(clone.parameters) && fresh(clone.http)
      ensures clone.State() == State()
    {
      var bag := new ParameterBag(parameters.entries);
      clone := new ProtocolRequest(address, credentials, bag);
      clone.http.Assign(http.Wire());
    }

    /** Prepare(), the visitor if any, then the send inside try/catch. */
    method Dispatch(kind: ResponseKind, prepare: Prepare, visitor: Option<Visitor>, send: Transport) returns (run: Run)
      modifies http
      ensures run == DispatchRun(kind, old(State()), prepare, visitor, send)
      // the message part ends as sent, as Prepare left it when the visitor threw, or untouched when Prepare threw
      ensures run.result.Returned? ==> http.Wire() == run.steps[|run.steps| - 1].request
      ensures run.result.Escaped? && run.result.error.PrepareFailed? ==> http.Wire() == old(http.Wire())
      ensures run.result.Escaped? && run.result.error.VisitorFailed? ==> http.Wire() == PrepareStep(prepare, old(State())).value
    {
      var steps := [Prepared];
      var prepared := PrepareStep(prepare, State());
      if prepared.Err? {
        return Run(steps, Escaped(prepared.error));
      }
      http.Assign(prepared.value);
      if visitor.Some? {
        steps := steps + [Visited];
        var visited := visitor.value(http.Wire());
        if visited.Err? {
          return Run(steps, Escaped(VisitorFailed(visited.error)));
        }
        http.Assign(visited.value);
      }
      var sent := http.Wire();
      var outcome := send(sent);
      steps := steps + [Sent(sent)];
      match outcome {
        case Threw(e) =>
          return Run(steps, Returned(FromException(kind, e)));
        case Received(response) =>
          return Run(steps, Returned(FromHttpResponse(kind, response)));
      }
    }
  }

  /** `ClientCredentialsHelper.PopulateClientCredentials(request, httpRequest)`. */
  method PopulateClientCredentials(request: ProtocolRequest, httpRequest: HttpRequest, populate: Populate)
    returns (thrown: Option<ConfigError>)
    modifies request.parameters, httpRequest
    ensures var p := CredentialStep(populate, old(request.credentials), old(request.parameters.entries), old(httpRequest.authorization));
      && request.parameters.entries == p.parameters
      && httpRequest.Wire() == old(httpRequest.Wire()).(authorization := p.authorization)
      && thrown == if p.failure.Some? then Some(CredentialsFailed(p.failure.value)) else None
  {
    var p := CredentialStep(populate, request.credentials, request.parameters.entries, httpRequest.authorization);
    request.parameters.entries := p.parameters;
    httpRequest.authorization := p.authorization;
    thrown := if p.failure.Some? then Some(CredentialsFailed(p.failure.value)) else None;
  }
}
