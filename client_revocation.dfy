/** HttpClientTokenRevocationExtensions: both RevokeTokenAsync overloads. */
module HttpClientTokenRevocationExtensions {
  import opened Wrappers
  import opened OidcConstants
  import opened Parameters
  import opened Http
  import opened Protocol
  import opened HttpRequestMessageTokenIntrospectionExtensions

  /** The clone after Method = POST and the token parameters, as handed to Prepare. */
  function RevocationClone(state: RequestState, token: Option<string>, tokenTypeHint: Option<string>): (r: Result<RequestState, ConfigError>)
    ensures IsMissing(token) ==> r == Err(MissingParameter(TokenKey))
    ensures r.Ok? <==> IsPresent(token) && TokenKey !in state.parameters && (IsPresent(tokenTypeHint) ==> TokenTypeHintKey !in state.parameters)
    ensures r.Ok? ==>
      && r.value.address == state.address && r.value.credentials == state.credentials
      && r.value.message == state.message.(verb := Post)
      && r.value.parameters.Keys == state.parameters.Keys + {TokenKey} + (if IsPresent(tokenTypeHint) then {TokenTypeHintKey} else {})
      && r.value.parameters[TokenKey] == token.value
      && (IsPresent(tokenTypeHint) ==> r.value.parameters[TokenTypeHintKey] == tokenTypeHint.value)
      && (forall k :: k in state.parameters ==> r.value.parameters[k] == state.parameters[k])
  {
    IntrospectionKeysAreNotCredentials();
    var withToken :- WithRequired(state.parameters, TokenKey, token, false);
    var bag :- WithOptional(withToken, TokenTypeHintKey, tokenTypeHint);
    Ok(state.(parameters := bag, message := state.message.(verb := Post)))
  }

  /** A revocation call: parameters, then Prepare, then the visitor, then the send. */
  function RevokeTokenRun(state: RequestState, token: Option<string>, tokenTypeHint: Option<string>,
                          prepare: Prepare, visitor: Option<Visitor>, send: Transport): (run: Run)
    ensures RevocationClone(state, token, tokenTypeHint).Err? ==>
      run == Run([], Escaped(RevocationClone(state, token, tokenTypeHint).error))
    ensures RevocationClone(state, token, tokenTypeHint).Ok? ==>
      run == DispatchRun(TokenRevocationResponse, RevocationClone(state, token, tokenTypeHint).value, prepare, visitor, send)
  {
    match RevocationClone(state, token, tokenTypeHint)
    case Err(e) => Run([], Escaped(e))
    case Ok(clone) => DispatchRun(TokenRevocationResponse, clone, prepare, visitor, send)
  }

  method RevokeTokenWithVisitor(request: ProtocolRequest, token: Option<string>, tokenTypeHint: Option<string>,
                                prepare: Prepare, visitor: Option<Visitor>, send: Transport)
    returns (run: Run)
    ensures run == RevokeTokenRun(old(request.State()), token, tokenTypeHint, prepare, visitor, send)
    ensures unchanged(request, request.parameters, request.http)
  {
    var clone := request.Clone();
    clone.http.verb := Post;
    var thrown := clone.parameters.AddRequired(TokenKey, token, false);
    if thrown.Some? {
      return Run([], Escaped(thrown.value));
    }
    thrown := clone.parameters.AddOptional(TokenTypeHintKey, tokenTypeHint);
    if thrown.Some? {
      return Run([], Escaped(thrown.value));
    }
    run := clone.Dispatch(TokenRevocationResponse, prepare, visitor, send);
  }

  /** The overload without a visitor is the visitor overload with a null visitor. */
  method RevokeToken(request: ProtocolRequest, token: Option<string>, tokenTypeHint: Option<string>,
                     prepare: Prepare, send: Transport)
    returns (run: Run)
    ensures run == RevokeTokenRun(request.State(), token, tokenTypeHint, prepare, None, send)
  {
    run := RevokeTokenWithVisitor(request, token, tokenTypeHint, prepare, None, send);
  }

  /** A missing token or a failing Prepare escapes; a transport exception never does. */
  lemma RevokeTokenRoutesErrors(state: RequestState, token: Option<string>, tokenTypeHint: Option<string>,
                                prepare: Prepare, visitor: Option<Visitor>, send: Transport)
    ensures RoutesErrors(RevokeTokenRun(state, token, tokenTypeHint, prepare, visitor, send), TokenRevocationResponse, send)
    ensures IsMissing(token) ==> RevokeTokenRun(state, token, tokenTypeHint, prepare, visitor, send) == Run([], Escaped(MissingParameter(TokenKey)))
  {
  }
}
