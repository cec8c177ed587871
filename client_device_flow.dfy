/** HttpClientDeviceFlowExtensions: both RequestDeviceAuthorizationAsync overloads. */
module HttpClientDeviceFlowExtensions {
  import opened Wrappers
  import opened OidcConstants
  import opened Parameters
  import opened Http
  import opened Protocol

  /** The clone after the optional scope and Method = POST, as handed to Prepare. */
  function DeviceAuthorizationClone(state: RequestState, scope: Option<string>): (r: Result<RequestState, ConfigError>)
    ensures r.Err? <==> IsPresent(scope) && ScopeKey in state.parameters
    ensures r.Err? ==> r.error == DuplicateParameter(ScopeKey)
    ensures r.Ok? ==>
      && r.value.address == state.address && r.value.credentials == state.credentials
      && r.value.message == state.message.(verb := Post)
      && r.value.parameters.Keys == state.parameters.Keys + (if IsPresent(scope) then {ScopeKey} else {})
      && (IsPresent(scope) ==> r.value.parameters[ScopeKey] == scope.value)
      && (forall k :: k in state.parameters ==> r.value.parameters[k] == state.parameters[k])
  {
    var bag :- WithOptional(state.parameters, ScopeKey, scope);
    Ok(state.(parameters := bag, message := state.message.(verb := Post)))
  }

  function DeviceAuthorizationRun(state: RequestState, scope: Option<string>,
                                  prepare: Prepare, visitor: Option<Visitor>, send: Transport): (run: Run)
    ensures DeviceAuthorizationClone(state, scope).Err? ==>
      run == Run([], Escaped(DeviceAuthorizationClone(state, scope).error))
    ensures DeviceAuthorizationClone(state, scope).Ok? ==>
      run == DispatchRun(DeviceAuthorizationResponse, DeviceAuthorizationClone(state, scope).value, prepare, visitor, send)
  {
    match DeviceAuthorizationClone(state, scope)
    case Err(e) => Run([], Escaped(e))
    case Ok(clone) => DispatchRun(DeviceAuthorizationResponse, clone, prepare, visitor, send)
  }

  method RequestDeviceAuthorizationWithVisitor(request: ProtocolRequest, scope: Option<string>,
                                               prepare: Prepare, visitor: Option<Visitor>, send: Transport)
    returns (run: Run)
    ensures run == DeviceAuthorizationRun(old(request.State()), scope, prepare, visitor, send)
    ensures unchanged(request, request.parameters, request.http)
  {
    var clone := request.Clone();
    var thrown := clone.parameters.AddOptional(ScopeKey, scope);
    if thrown.Some? {
      return Run([], Escaped(thrown.value));
    }
    clone.http.verb := Post;
    run := clone.Dispatch(DeviceAuthorizationResponse, prepare, visitor, send);
  }

  /** The overload without a visitor is the visitor overload with a null visitor. */
  method RequestDeviceAuthorization(request: ProtocolRequest, scope: Option<string>, prepare: Prepare, send: Transport)
    returns (run: Run)
    ensures run == DeviceAuthorizationRun(request.State(), scope, prepare, None, send)
  {
    run := RequestDeviceAuthorizationWithVisitor(request, scope, prepare, None, send);
  }

  /** A duplicate scope or a failing Prepare escapes; a transport exception never does. */
  lemma DeviceAuthorizationRoutesErrors(state: RequestState, scope: Option<string>,
                                        prepare: Prepare, visitor: Option<Visitor>, send: Transport)
    ensures RoutesErrors(DeviceAuthorizationRun(state, scope, prepare, visitor, send), DeviceAuthorizationResponse, send)
  {
    match DeviceAuthorizationClone(state, scope)
    case Err(e) =>
    case Ok(clone) => DispatchRoutesErrors(DeviceAuthorizationResponse, clone, prepare, visitor, send);
  }
}
