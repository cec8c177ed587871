/**
 * HttpClientTokenRequestExtensions: each grant call builds a fresh
 * HttpRequestMessage with its builder and hands it to SendInternalAsync;
 * RequestTokenAsync builds on the caller's own request, and
 * RequestTokenRawAsync wraps the caller's dictionary without copying it.
 */
module HttpClientTokenRequestExtensions {
  import opened Wrappers
  import opened OidcConstants
  import opened Parameters
  import opened Http
  import opened Protocol
  import opened HttpRequestMessageTokenExtensions

  /** `SendInternalAsync`: the only place a token request meets the transport. */
  method SendInternal(httpRequest: HttpRequest, send: Transport) returns (response: ProtocolResponse)
    ensures response == FromTransport(TokenResponse, send(httpRequest.Wire()))
  {
    var outcome := send(httpRequest.Wire());
    match outcome {
      case Threw(e) =>
        return FromException(TokenResponse, e);
      case Received(r) =>
        return FromHttpResponse(TokenResponse, r);
    }
  }

  /** A per-grant token call on a request in `state`. */
  function GrantTokenRun(grant: Grant, state: RequestState, populate: Populate, send: Transport): (run: Run)
    ensures var b := GrantBuild(grant, state, EmptyMessage, populate);
      && (run.result.Escaped? <==> b.thrown.Some?)
      && (b.thrown.Some? ==> run == Run([], Escaped(b.thrown.value)))
      && (b.thrown.None? ==>
            && run.steps == [Sent(b.message)]
            && Carries(b.message.content.value, grant)
            && run.result == Returned(FromTransport(TokenResponse, send(b.message))))
  {
    var b := GrantBuild(grant, state, EmptyMessage, populate);
    BuiltRun(TokenResponse, b.message, b.thrown, send)
  }

  /** The builder error, if any, escapes; the message otherwise goes through SendInternal. */
  method SendBuilt(httpRequest: HttpRequest, thrown: Option<ConfigError>, send: Transport) returns (run: Run)
    ensures run == BuiltRun(TokenResponse, httpRequest.Wire(), thrown, send)
  {
    if thrown.Some? {
      return Run([], Escaped(thrown.value));
    }
    var response := SendInternal(httpRequest, send);
    run := Run([Sent(httpRequest.Wire())], Returned(response));
  }

  method RequestClientCredentialsToken(request: ProtocolRequest, scope: Option<string>, populate: Populate, send: Transport)
    returns (run: Run)
    ensures run == GrantTokenRun(ClientCredentials(scope), request.State(), populate, send)
  {
    var httpRequest := new HttpRequest();
    var thrown := SetClientCredentialsTokenRequest(httpRequest, request, scope, populate);
    run := SendBuilt(httpRequest, thrown, send);
  }

  method RequestDeviceToken(request: ProtocolRequest, deviceCode: Option<string>, populate: Populate, send: Transport)
    returns (run: Run)
    ensures run == GrantTokenRun(DeviceCode(deviceCode), request.State(), populate, send)
  {
    var httpRequest := new HttpRequest();
    var thrown := SetDeviceTokenRequest(httpRequest, request, deviceCode, populate);
    run := SendBuilt(httpRequest, thrown, send);
  }

  method RequestPasswordToken(request: ProtocolRequest, userName: Option<string>, password: Option<string>, scope: Option<string>,
                              populate: Populate, send: Transport)
    returns (run: Run)
    ensures run == GrantTokenRun(Password(userName, password, scope), request.State(), populate, send)
  {
    var httpRequest := new HttpRequest();
    var thrown := SetPasswordTokenRequest(httpRequest, request, userName, password, scope, populate);
    run := SendBuilt(httpRequest, thrown, send);
  }

  method RequestAuthorizationCodeToken(request: ProtocolRequest, code: Option<string>, redirectUri: Option<string>,
                                       codeVerifier: Option<string>, populate: Populate, send: Transport)
    returns (run: Run)
    ensures run == GrantTokenRun(AuthorizationCode(code, redirectUri, codeVerifier), request.State(), populate, send)
  {
    var httpRequest := new HttpRequest();
    var thrown := SetAuthorizationCodeTokenRequest(httpRequest, request, code, redirectUri, codeVerifier, populate);
    run := SendBuilt(httpRequest, thrown, send);
  }

  method RequestRefreshToken(request: ProtocolRequest, refreshToken: Option<string>, scope: Option<string>,
                             populate: Populate, send: Transport)
    returns (run: Run)
    ensures run == GrantTokenRun(RefreshToken(refreshToken, scope), request.State(), populate, send)
  {
    var httpRequest := new HttpRequest();
    var thrown := SetRefreshTokenRequest(httpRequest, request, refreshToken, scope, populate);
    run := SendBuilt(httpRequest, thrown, send);
  }

  /** A generic token call: the caller's bag after the call, and the run. */
  function TokenCall(state: RequestState, grantType: Option<string>, populate: Populate, send: Transport): (r: (Bag, Run))
    // the caller's bag ends as SetTokenRequest leaves it, whether or not the call escapes
    ensures r.0 == SetTokenRequestEffect(state, grantType, EmptyMessage, populate).parameters
    // a builder exception escapes before anything is sent; otherwise the built message is sent once
    ensures var e := SetTokenRequestEffect(state, grantType, EmptyMessage, populate);
      && (r.1.result.Escaped? <==> e.thrown.Some?)
      && (e.thrown.Some? ==> r.1 == Run([], Escaped(e.thrown.value)))
      && (e.thrown.None? ==> r.1.steps == [Sent(e.message)])
    // a transport exception never escapes
    ensures RoutesErrors(r.1, TokenResponse, send)
  {
    var e := SetTokenRequestEffect(state, grantType, EmptyMessage, populate);
    BuiltRoutesErrors(TokenResponse, e.message, e.thrown, send);
    (e.parameters, BuiltRun(TokenResponse, e.message, e.thrown, send))
  }

  /** `RequestTokenAsync`: no clone is made, so the caller's bag is the one that changes. */
  method RequestToken(request: ProtocolRequest, grantType: Option<string>, populate: Populate, send: Transport)
    returns (run: Run)
    modifies request.parameters
    ensures (request.parameters.entries, run) == TokenCall(old(request.State()), grantType, populate, send)
  {
    var httpRequest := new HttpRequest();
    var thrown := SetTokenRequest(httpRequest, request, grantType, populate);
    run := SendBuilt(httpRequest, thrown, send);
  }

  /** The request `new TokenRequest { Address = address, Parameters = parameters }` starts from. */
  function RawState(address: Option<string>, parameters: Bag): RequestState {
    RequestState(address, Credentials(None, None), parameters, EmptyMessage)
  }

  /** `RequestTokenRawAsync`: the new request's Parameters is the caller's dictionary itself. */
  method RequestTokenRaw(address: Option<string>, parameters: ParameterBag?, populate: Populate, send: Transport)
    returns (run: Run)
    modifies parameters
    ensures parameters == null ==> run == Run([], Escaped(NullParameters))
    ensures parameters != null ==>
      (parameters.entries, run) == TokenCall(RawState(address, old(parameters.entries)), None, populate, send)
  {
    if parameters == null {
      return Run([], Escaped(NullParameters));
    }
    var request := new ProtocolRequest(address, Credentials(None, None), parameters);
    run := RequestToken(request, None, populate, send);
  }

  // Properties of the generic and raw token calls.

  /** The growth of the caller's bag is visible even when the call then escapes with a missing client_id. */
  lemma RequestTokenMutatesCallerBag(state: RequestState, grantType: Option<string>, populate: Populate, send: Transport)
    requires GrantTypeKey !in state.parameters && IsPresent(grantType)
    ensures var (bag, run) := TokenCall(state, grantType, populate, send);
      GrantTypeKey in bag && bag[GrantTypeKey] == grantType.value
    ensures ClientIdKey !in state.parameters && IsMissing(state.credentials.clientId) ==>
      var (bag, run) := TokenCall(state, grantType, populate, send);
      run == Run([], Escaped(MissingClientId)) && bag == state.parameters[GrantTypeKey := grantType.value]
  {
  }

  /** A raw call needs grant_type in the dictionary: there is no GrantType to fall back on. */
  lemma RawWithoutGrantTypeEscapes(address: Option<string>, parameters: Bag, populate: Populate, send: Transport)
    requires GrantTypeKey !in parameters
    ensures TokenCall(RawState(address, parameters), None, populate, send) == (parameters, Run([], Escaped(MissingParameter(GrantTypeKey))))
  {
  }

  /** A raw call needs client_id in the dictionary: the new request has no ClientId. */
  lemma RawWithoutClientIdEscapes(address: Option<string>, parameters: Bag, populate: Populate, send: Transport)
    requires GrantTypeKey in parameters && ClientIdKey !in parameters
    ensures TokenCall(RawState(address, parameters), None, populate, send) == (parameters, Run([], Escaped(MissingClientId)))
  {
  }

  /** Builder exceptions (a missing client_id among them) escape; a transport exception never does. */
  lemma GrantTokenRoutesErrors(grant: Grant, state: RequestState, populate: Populate, send: Transport)
    ensures RoutesErrors(GrantTokenRun(grant, state, populate, send), TokenResponse, send)
  {
  }
}
