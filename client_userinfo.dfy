/** HttpClientUserInfoExtensions: both GetUserInfoAsync overloads. */
module HttpClientUserInfoExtensions {
  import opened Wrappers
  import opened OidcConstants
  import opened Parameters
  import opened Http
  import opened Protocol

  /** The clone after Method = GET and the bearer header, as handed to Prepare. */
  function UserInfoClone(state: RequestState, token: string): (c: RequestState)
    // only the method and the Authorization header of the message change
    ensures c.message == state.message.(verb := Get, authorization := Some(Authorization(BearerScheme, token)))
    ensures c.parameters == state.parameters && c.address == state.address && c.credentials == state.credentials
  {
    state.(message := state.message.(verb := Get, authorization := Some(Authorization(BearerScheme, token))))
  }

  function UserInfoRun(state: RequestState, token: Option<string>,
                       prepare: Prepare, visitor: Option<Visitor>, send: Transport): (run: Run)
    // a missing token is raised before the clone, Prepare, the visitor and the send
    ensures IsMissing(token) <==> run == Run([], Escaped(MissingToken))
    ensures IsPresent(token) ==> run == DispatchRun(UserInfoResponse, UserInfoClone(state, token.value), prepare, visitor, send)
  {
    if IsMissing(token) then Run([], Escaped(MissingToken))
    else DispatchRun(UserInfoResponse, UserInfoClone(state, token.value), prepare, visitor, send)
  }

  method GetUserInfoWithVisitor(request: ProtocolRequest, token: Option<string>,
                                prepare: Prepare, visitor: Option<Visitor>, send: Transport)
    returns (run: Run)
    ensures run == UserInfoRun(old(request.State()), token, prepare, visitor, send)
    ensures unchanged(request, request.parameters, request.http)
  {
    if IsMissing(token) {
      return Run([], Escaped(MissingToken));
    }
    var clone := request.Clone();
    clone.http.verb := Get;
    clone.http.SetBearerToken(token.value);
    run := clone.Dispatch(UserInfoResponse, prepare, visitor, send);
  }

  /** The overload without a visitor is the visitor overload with a null visitor. */
  method GetUserInfo(request: ProtocolRequest, token: Option<string>, prepare: Prepare, send: Transport)
    returns (run: Run)
    ensures run == UserInfoRun(request.State(), token, prepare, None, send)
  {
    run := GetUserInfoWithVisitor(request, token, prepare, None, send);
  }

  /** A missing token or a failing Prepare escapes; a transport exception never does. */
  lemma UserInfoRoutesErrors(state: RequestState, token: Option<string>,
                             prepare: Prepare, visitor: Option<Visitor>, send: Transport)
    ensures RoutesErrors(UserInfoRun(state, token, prepare, visitor, send), UserInfoResponse, send)
  {
  }
}
