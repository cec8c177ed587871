/** HttpClientTokenIntrospectionExtensions.IntrospectTokenAsync. */
module HttpClientTokenIntrospectionExtensions {
  import opened Wrappers
  import opened OidcConstants
  import opened Parameters
  import opened Http
  import opened Protocol
  import opened HttpRequestMessageTokenIntrospectionExtensions

  /** An introspection call on a request in `state`. */
  function IntrospectRun(state: RequestState, token: Option<string>, tokenTypeHint: Option<string>,
                         populate: Populate, send: Transport): (run: Run)
    ensures var (message, thrown) := IntrospectionBuild(state, token, tokenTypeHint, EmptyMessage, populate);
      && (thrown.Some? ==> run == Run([], Escaped(thrown.value)))
      && (thrown.None? ==>
            && run.steps == [Sent(message)]
            && run.result == Returned(FromTransport(TokenIntrospectionResponse, send(message))))
    ensures run.result.Returned? ==> run.result.response.kind == TokenIntrospectionResponse
  {
    var (message, thrown) := IntrospectionBuild(state, token, tokenTypeHint, EmptyMessage, populate);
    BuiltRun(TokenIntrospectionResponse, message, thrown, send)
  }

  method IntrospectToken(request: ProtocolRequest, token: Option<string>, tokenTypeHint: Option<string>,
                         populate: Populate, send: Transport)
    returns (run: Run)
    ensures run == IntrospectRun(request.State(), token, tokenTypeHint, populate, send)
  {
    var httpRequest := new HttpRequest();
    var thrown := SetTokenIntrospectionRequest(httpRequest, request, token, tokenTypeHint, populate);
    if thrown.Some? {
      return Run([], Escaped(thrown.value));
    }
    var sent := httpRequest.Wire();
    var outcome := send(sent);
    match outcome {
      case Threw(e) =>
        return Run([Sent(sent)], Returned(FromException(TokenIntrospectionResponse, e)));
      case Received(r) =>
        return Run([Sent(sent)], Returned(FromHttpResponse(TokenIntrospectionResponse, r)));
    }
  }

  /** A builder exception escapes; a transport exception never does. */
  lemma IntrospectRoutesErrors(state: RequestState, token: Option<string>, tokenTypeHint: Option<string>,
                               populate: Populate, send: Transport)
    ensures RoutesErrors(IntrospectRun(state, token, tokenTypeHint, populate, send), TokenIntrospectionResponse, send)
  {
    var (message, thrown) := IntrospectionBuild(state, token, tokenTypeHint, EmptyMessage, populate);
    BuiltRoutesErrors(TokenIntrospectionResponse, message, thrown, send);
  }
}
