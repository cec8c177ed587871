/** HttpRequestMessageTokenIntrospectionExtensions.SetTokenIntrospectionRequest. */
module HttpRequestMessageTokenIntrospectionExtensions {
  import opened Wrappers
  import opened OidcConstants
  import opened Parameters
  import opened Http
  import opened Protocol

  lemma IntrospectionKeysAreNotCredentials()
    ensures TokenKey !in CredentialParameters && TokenTypeHintKey !in CredentialParameters && TokenKey != TokenTypeHintKey
  {
    assert TokenKey[0] == 't' && TokenTypeHintKey[0] == 't' && ClientIdKey[0] == 'c';
    assert |TokenKey| != |TokenTypeHintKey|;
  }

  /**
   * The message after `SetTokenIntrospectionRequest` with the request in
   * `state`, its Token and TokenTypeHint, written into `before`, and the
   * exception raised.
   */
  function IntrospectionBuild(state: RequestState, token: Option<string>, tokenTypeHint: Option<string>,
                              before: Message, populate: Populate): (r: (Message, Option<ConfigError>))
    // URI, method and Accept are set first, whatever happens later
    ensures r.0.requestUri == (if IsPresent(state.address) then state.address else before.requestUri)
    ensures r.0.verb == Post && r.0.accept == [ApplicationJson]
    // the credential step's header reaches the message, whatever happens later
    ensures r.0.authorization == PlacedAuthorization(populate(state.credentials, state.parameters), before.authorization)
    // Content is assigned last, and only on success
    ensures r.1.Some? ==> r.0.content == before.content
    // there is no client_id check here
    ensures r.1 != Some(MissingClientId)
    // a missing token fails unless the credential step failed first
    ensures IsMissing(token) && populate(state.credentials, state.parameters).failure.None? ==> r.1 == Some(MissingParameter(TokenKey))
    // the build succeeds exactly when the credential step does, the token is present and the keys are new
    ensures r.1.None? <==>
      && populate(state.credentials, state.parameters).failure.None?
      && IsPresent(token) && TokenKey !in state.parameters
      && (IsPresent(tokenTypeHint) ==> TokenTypeHintKey !in state.parameters)
    ensures populate(state.credentials, state.parameters).failure.Some? ==>
      r.1 == Some(CredentialsFailed(populate(state.credentials, state.parameters).failure.value))
    ensures r.1.None? ==> r.0.content.Some?
    ensures r.1.None? ==>
      var content := r.0.content.value;
      && IsPresent(token) && TokenKey in content && content[TokenKey] == token.value
      && (TokenTypeHintKey !in state.parameters ==> (TokenTypeHintKey in content <==> IsPresent(tokenTypeHint)))
      && (IsPresent(tokenTypeHint) ==> TokenTypeHintKey in content && content[TokenTypeHintKey] == tokenTypeHint.value)
      && (forall k :: k in state.parameters && k !in CredentialParameters ==> k in content && content[k] == state.parameters[k])
      && CredentialsFrom(content, populate(state.credentials, state.parameters).parameters)
      // and no other parameter: off the credential keys, the caller's keys plus token and the present hint
      && (forall k :: k !in CredentialParameters ==>
            (k in content <==> k in state.parameters || k == TokenKey || (k == TokenTypeHintKey && IsPresent(tokenTypeHint))))
  {
    IntrospectionKeysAreNotCredentials();
    var addressed := if IsPresent(state.address) then before.(requestUri := state.address) else before;
    var posted := addressed.(verb := Post, accept := [ApplicationJson]);
    var p := CredentialStep(populate, state.credentials, state.parameters, posted.authorization);
    var credentialed := posted.(authorization := p.authorization);
    if p.failure.Some? then (credentialed, Some(CredentialsFailed(p.failure.value)))
    else match IntrospectionParameters(p.parameters, token, tokenTypeHint)
      case Err(e) => (credentialed, Some(e))
      case Ok(bag) => (credentialed.(content := Some(bag)), None)
  }

  /** token and the optional token_type_hint, added to the clone after the credential step. */
  function IntrospectionParameters(bag: Bag, token: Option<string>, tokenTypeHint: Option<string>): (r: Result<Bag, ConfigError>)
    ensures r.Ok? <==> IsPresent(token) && TokenKey !in bag && (IsPresent(tokenTypeHint) ==> TokenTypeHintKey !in bag)
    ensures IsMissing(token) ==> r == Err(MissingParameter(TokenKey))
    ensures r.Ok? ==>
      && r.value.Keys == bag.Keys + {TokenKey} + (if IsPresent(tokenTypeHint) then {TokenTypeHintKey} else {})
      && r.value[TokenKey] == token.value
      && (IsPresent(tokenTypeHint) ==> r.value[TokenTypeHintKey] == tokenTypeHint.value)
      && (forall k :: k in bag ==> r.value[k] == bag[k])
  {
    IntrospectionKeysAreNotCredentials();
    var withToken :- WithRequired(bag, TokenKey, token, false);
    WithOptional(withToken, TokenTypeHintKey, tokenTypeHint)
  }

  /** The two additions on the clone's own bag, in the source's order. */
  method AddIntrospectionParameters(bag: ParameterBag, token: Option<string>, tokenTypeHint: Option<string>)
    returns (thrown: Option<ConfigError>)
    modifies bag
    ensures thrown == Raised(IntrospectionParameters(old(bag.entries), token, tokenTypeHint))
    ensures thrown.None? ==> bag.entries == IntrospectionParameters(old(bag.entries), token, tokenTypeHint).value
  {
    thrown := bag.AddRequired(TokenKey, token, false);
    if thrown.Some? {
      return;
    }
    thrown := bag.AddOptional(TokenTypeHintKey, tokenTypeHint);
  }

  /** `httpRequest.SetTokenIntrospectionRequest(request)`: the parameters go to a clone. */
  method SetTokenIntrospectionRequest(httpRequest: HttpRequest, request: ProtocolRequest,
                                      token: Option<string>, tokenTypeHint: Option<string>, populate: Populate)
    returns (thrown: Option<ConfigError>)
    modifies httpRequest
    ensures (httpRequest.Wire(), thrown) == IntrospectionBuild(old(request.State()), token, tokenTypeHint, old(httpRequest.Wire()), populate)
    ensures unchanged(request, request.parameters)
  {
    if IsPresent(request.address) {
      httpRequest.requestUri := request.address;
    }
    httpRequest.verb := Post;
    httpRequest.AcceptOnly(ApplicationJson);
    var clone := request.Clone();
    thrown := PopulateClientCredentials(clone, httpRequest, populate);
    if thrown.Some? {
      return;
    }
    thrown := AddIntrospectionParameters(clone.parameters, token, tokenTypeHint);
    if thrown.Some? {
      return;
    }
    httpRequest.content := Some(clone.parameters.entries);
  }
}
