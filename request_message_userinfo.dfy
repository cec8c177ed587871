/** HttpRequestMessageUserInfoExtensions.SetUserInfoRequest. */
module HttpRequestMessageUserInfoExtensions {
  import opened Wrappers
  import opened OidcConstants
  import opened Parameters
  import opened Http
  import opened Protocol

  /**
   * The message after `SetUserInfoRequest` with the request's Address and
   * Token, written into `before`, and the exception raised. The request's
   * parameter bag is not an input: it is never read.
   */
  function UserInfoBuild(address: Option<string>, token: Option<string>, before: Message): (r: (Message, Option<ConfigError>))
    ensures r.1.Some? <==> IsMissing(token)
    ensures r.1.Some? ==> r.1 == Some(MissingToken) && r.0 == before
    ensures r.1.None? ==>
      && r.0.requestUri == (if IsPresent(address) then address else before.requestUri)
      && r.0.verb == Get
      && r.0.accept == [ApplicationJson]
      && r.0.authorization == Some(Authorization(BearerScheme, token.value))
      && r.0.content == before.content
  {
    if IsMissing(token) then (before, Some(MissingToken))
    else
      var addressed := if IsPresent(address) then before.(requestUri := address) else before;
      (addressed.(verb := Get, accept := [ApplicationJson], authorization := Some(Authorization(BearerScheme, token.value))), None)
  }

  /** `httpRequest.SetUserInfoRequest(request)`, where `token` is the request's Token. */
  method SetUserInfoRequest(httpRequest: HttpRequest, request: ProtocolRequest, token: Option<string>)
    returns (thrown: Option<ConfigError>)
    modifies httpRequest
    ensures (httpRequest.Wire(), thrown) == UserInfoBuild(old(request.address), token, old(httpRequest.Wire()))
    ensures unchanged(request, request.parameters)
  {
    if IsMissing(token) {
      return Some(MissingToken);
    }
    if IsPresent(request.address) {
      httpRequest.requestUri := request.address;
    }
    httpRequest.verb := Get;
    httpRequest.AcceptOnly(ApplicationJson);
    httpRequest.SetBearerToken(token.value);
    thrown := None;
  }
}
