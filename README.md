# IdentityModel client extensions: request construction and error routing

This project models the part of the IdentityModel OAuth 2.0 / OpenID Connect
client that turns a caller's protocol request into an outgoing HTTP message and
decides which failures reach the caller. It covers:

- the `HttpRequestMessage` builders for the five token grants (client
  credentials, device code, password, authorization code, refresh token), the
  generic token request, token introspection and userinfo;
- the `HttpMessageInvoker` calls that use them: the five grant calls,
  `RequestTokenAsync`, `RequestTokenRawAsync`, `SendInternalAsync`,
  `IntrospectTokenAsync`, and both overloads each of `RevokeTokenAsync`,
  `RequestDeviceAuthorizationAsync` and `GetUserInfoAsync`.

How the source's objects and effects are represented:

- **Requests and messages.**
  - A protocol request is a class `Protocol.ProtocolRequest` with the fields:
    - `address`;
    - `credentials`;
    - `parameters`, a separate `Parameters.ParameterBag` object, so two requests can share one dictionary, as `RequestTokenRawAsync` does;
    - `http`, the `HttpRequestMessage` part it inherits in the source.
  - An HTTP request message is a class `Http.HttpRequest`. Its fields are request URI, method, Accept list, Authorization header and form content. The builders assign them one at a time.
- **Subtype properties.** Values that the source reads from the subtype (`Scope`, `Token`, `UserName`, …) become parameters of each operation. The source always reads them from the caller's request, never from the clone.
- **Exceptions.**
  - A builder that throws returns `Some(error)` and stops where the source would stop.
  - A client call returns a `Protocol.Run`. It records the steps it took (`Prepared`, `Visited`, `Sent(message)`) and whether it `Escaped` with an exception raised before the send (building, `Prepare` or the visitor) or `Returned` a typed response.
- **Helpers implemented outside these classes.** These are caller-chosen functions, constrained only as far as the call sites rely on them:
  - the HTTP transport;
  - `Prepare`;
  - the request visitor;
  - the client-credential step.
- **Proof helpers.** `GrantValuesArePresent`, `KeysDistinct`, `BuilderKeysAreNotCredentials` and `IntrospectionKeysAreNotCredentials` state facts about the parameter-name constants that the builders' proofs use. They model no source lines of their own.
- **Specification functions.** Every builder and client call is proved against one: `SetTokenRequestEffect`, `GrantBuild`, `IntrospectionBuild`, `UserInfoBuild`, `DispatchRun`, `RevokeTokenRun`, …. Those functions carry the properties the source promises.

Modules follow the source's static classes:

| module | source class |
|---|---|
| `HttpRequestMessageTokenExtensions` | per-grant builders and `SetTokenRequest` |
| `HttpRequestMessageTokenIntrospectionExtensions` | `SetTokenIntrospectionRequest` |
| `HttpRequestMessageUserInfoExtensions` | `SetUserInfoRequest` |
| `HttpClientTokenRequestExtensions` | token calls |
| `HttpClientTokenIntrospectionExtensions` | introspection call |
| `HttpClientTokenRevocationExtensions` | revocation calls |
| `HttpClientDeviceFlowExtensions` | device authorization calls |
| `HttpClientUserInfoExtensions` | userinfo calls |

`Wrappers`, `OidcConstants`, `Parameters`, `Http` and `Protocol` hold the shared types. The parameter names and grant values follow these standards:

- RFC 6749 sections 4.1.3, 4.3.2, 4.4.2 and 6;
- RFC 7636 section 4.5;
- RFC 8628 sections 3.1 and 3.4;
- RFC 7662 section 2.1;
- RFC 7009 section 2.1;
- RFC 6750 section 2.1.

The userinfo call is a GET, as in section 5.3.1 of OpenID Connect Core 1.0.

## Semantics chosen for the helpers

- **`AddRequired(key, value, allowEmpty)`.**
  - A present value is stored.
  - A missing value (null, empty or all white space) is stored as `""` when `allowEmpty` holds; otherwise it raises `MissingParameter(key)`.
- **`AddOptional(key, value)`.** It stores only a present value.
- **An existing key.** Both helpers raise `DuplicateParameter(key)` when the key is already in the bag. They are implemented outside these classes, so this is a modelling choice: it follows the released IdentityModel dictionary helpers, which refuse a duplicate. A description that says "insert or overwrite" would differ only in that case. The builders guard against it themselves only for `grant_type` in `SetTokenRequest`.
- **What counts as white space.** `IsMissing` uses .NET's `string.IsNullOrWhiteSpace`, with the white-space characters of `char.IsWhiteSpace`.

## Model

| member | source | states |
|---|---|---|
| Parameters.AllWhiteSpace | src/Client/Extensions/HttpRequestMessage/HttpRequestMessageTokenExtensions.cs:74 | true exactly when every character of the string is white space (the test behind IsMissing) |
| Parameters.IsMissing | src/Client/Extensions/HttpRequestMessage/HttpRequestMessageTokenExtensions.cs:74 | a value is missing exactly when it is null or every character is white space (the empty string included) |
| Parameters.IsPresent | src/Client/Extensions/HttpRequestMessage/HttpRequestMessageTokenExtensions.cs:77 | a value is present exactly when it is non-null and has a non-white-space character |
| Parameters.WithRequired | src/Client/Extensions/HttpRequestMessage/HttpRequestMessageTokenExtensions.cs:34-36 | AddRequired succeeds iff the value is present or allowEmpty, and the key is new; a missing value raises MissingParameter(key); on success the key set grows by exactly the key, the stored value is the value or "" and every earlier entry is kept |
| Parameters.WithOptional | src/Client/Extensions/HttpRequestMessage/HttpRequestMessageTokenExtensions.cs:15 | AddOptional leaves the bag unchanged for a missing value; a present value is added under the key, and only that key, unless the key exists, which raises DuplicateParameter |
| Parameters.ParameterBag.constructor | src/Client/Extensions/HttpClientTokenRequestExtensions.cs:134 | the bag holds exactly the given entries |
| Parameters.ParameterBag.AddRequired | src/Client/Extensions/HttpRequestMessage/HttpRequestMessageTokenExtensions.cs:24-25 | the in-place insert raises exactly WithRequired's error and otherwise leaves exactly WithRequired's bag; on an error the entries are unchanged |
| Parameters.ParameterBag.AddOptional | src/Client/Extensions/HttpRequestMessage/HttpRequestMessageTokenExtensions.cs:37 | the in-place insert raises exactly WithOptional's error and otherwise leaves exactly WithOptional's bag |
| Http.HttpRequest.constructor | src/Client/Extensions/HttpClientTokenRequestExtensions.cs:28 | `new HttpRequestMessage()` starts with no URI, GET, no Accept entries, no Authorization and no content |
| Http.HttpRequest.Assign | src/Client/Extensions/HttpClientTokenRevocationExtensions.cs:47-51 | the message afterwards is exactly the one given (what Prepare or the visitor leaves) |
| Http.HttpRequest.AcceptOnly | src/Client/Extensions/HttpRequestMessage/HttpRequestMessageTokenExtensions.cs:84-85 | Accept becomes exactly the one media type, earlier entries cleared; nothing else changes |
| Http.HttpRequest.SetBearerToken | src/Client/Extensions/HttpRequestMessage/HttpRequestMessageUserInfoExtensions.cs:23 | the Authorization header becomes Bearer with exactly the token; nothing else changes |
| Protocol.KeepNonCredential | src/Client/Extensions/HttpRequestMessage/HttpRequestMessageTokenExtensions.cs:87 | the bag agrees with the earlier bag on every non-credential key and with the credential step's bag on client_id, client_secret, client_assertion_type and client_assertion |
| Protocol.CredentialStep | src/Client/Extensions/HttpRequestMessage/HttpRequestMessageIntrospectionExtensions.cs:23 | the credential step keeps every non-credential key and value; on the credential keys the bag is exactly the helper's (same keys, same values); the Authorization header is the helper's when it sets one and is kept otherwise; the helper's failure is reported |
| Protocol.PopulateClientCredentials | src/Client/Extensions/HttpRequestMessage/HttpRequestMessageTokenExtensions.cs:87 | the request's bag and the message's Authorization header become CredentialStep's, nothing else in the message changes, and a failure is raised as CredentialsFailed |
| Protocol.PrepareStep | src/Client/Extensions/HttpClientTokenRevocationExtensions.cs:47 | Prepare succeeds iff the helper does; its message is the helper's with the clone's HTTP method kept, and its failure is PrepareFailed carrying the helper's reason |
| Protocol.FromTransport | src/Client/Extensions/HttpClientTokenRequestExtensions.cs:160-170 | a thrown exception becomes FromException carrying that exception, a received response becomes FromHttpResponse carrying that response, both of the call's kind |
| Protocol.SendRun | src/Client/Extensions/HttpClientTokenIntrospectionExtensions.cs:30-40 | the message is sent once, and the call returns (never escapes) a response of the call's kind, FromException exactly when the send threw |
| Protocol.BuiltRun | src/Client/Extensions/HttpClientTokenIntrospectionExtensions.cs:27-40 | a builder exception escapes with no send; otherwise the built message is sent as SendRun says |
| Protocol.DispatchRun | src/Client/Extensions/HttpClientTokenRevocationExtensions.cs:47-64 | Prepare's failure escapes before the visitor and the send; the visitor runs exactly once on the prepared clone when given and never otherwise, and its exception escapes before the send; otherwise the message sent is the visitor's result, or the prepared clone without a visitor, and the response is that message's transport outcome |
| Protocol.BuiltRoutesErrors | src/Client/Extensions/HttpClientTokenRequestExtensions.cs:28-31 | a built call escapes exactly when nothing reached the network, and whatever was sent comes back as FromTransport of the call's kind |
| Protocol.DispatchRoutesErrors | src/Client/Extensions/HttpClientDeviceFlowExtensions.cs:46-63 | a dispatched call escapes exactly when nothing reached the network, and whatever was sent comes back as FromTransport of the call's kind |
| Protocol.ProtocolRequest.constructor | src/Client/Extensions/HttpClientTokenRequestExtensions.cs:131-135 | the request holds the given address, credentials and the given bag object itself (no copy), with a fresh empty message |
| Protocol.ProtocolRequest.Clone | src/Client/Extensions/HttpClientTokenRevocationExtensions.cs:42 | the clone, its bag and its message are fresh objects and its state equals the original's |
| Protocol.ProtocolRequest.Dispatch | src/Client/Extensions/HttpClientUserInfoExtensions.cs:48-65 | the imperative Prepare / visitor / try-send sequence on the clone produces exactly DispatchRun of the state it started in; afterwards the message part is the one sent, or Prepare's when the visitor threw, or untouched when Prepare threw |
| HttpRequestMessageTokenExtensions.ClientCredentialsParameters | src/Client/Extensions/HttpRequestMessage/HttpRequestMessageTokenExtensions.cs:14-15 | succeeds iff grant_type, and scope when present, are new keys; a caller's own grant_type raises DuplicateParameter(grant_type); then grant_type is client_credentials, scope is in the bag iff present, and nothing else is added or changed |
| HttpRequestMessageTokenExtensions.DeviceCodeParameters | src/Client/Extensions/HttpRequestMessage/HttpRequestMessageTokenExtensions.cs:24-25 | succeeds iff the device code is present and the keys are new; a caller's own grant_type raises DuplicateParameter(grant_type), and otherwise a missing code raises MissingParameter(device_code); then grant_type is the device_code URN and device_code the caller's code |
| HttpRequestMessageTokenExtensions.PasswordParameters | src/Client/Extensions/HttpRequestMessage/HttpRequestMessageTokenExtensions.cs:34-37 | succeeds iff the user name is present and the keys are new (a missing password is allowed and stored as ""); a caller's own grant_type raises DuplicateParameter(grant_type), and otherwise a missing user name raises MissingParameter(username); then grant_type is password and username, password and scope carry the caller's values |
| HttpRequestMessageTokenExtensions.PasswordFields | src/Client/Extensions/HttpRequestMessage/HttpRequestMessageTokenExtensions.cs:35-37 | username must be present (else MissingParameter(username)) and password may be missing (stored as ""); scope is added iff present; succeeds iff the keys are new, keeping every earlier entry |
| HttpRequestMessageTokenExtensions.AuthorizationCodeParameters | src/Client/Extensions/HttpRequestMessage/HttpRequestMessageTokenExtensions.cs:46-49 | succeeds iff code and redirect_uri are present and the keys are new; a caller's own grant_type raises DuplicateParameter(grant_type), then a missing code raises MissingParameter(code), then (with code added) a missing redirect_uri raises MissingParameter(redirect_uri); code_verifier is in the bag iff present |
| HttpRequestMessageTokenExtensions.AuthorizationCodeFields | src/Client/Extensions/HttpRequestMessage/HttpRequestMessageTokenExtensions.cs:47-49 | code and redirect_uri must be present and carry the caller's values, a missing one raising MissingParameter in that order; code_verifier is added iff present; succeeds iff the keys are new, keeping every earlier entry |
| HttpRequestMessageTokenExtensions.RefreshTokenParameters | src/Client/Extensions/HttpRequestMessage/HttpRequestMessageTokenExtensions.cs:58-60 | succeeds iff the refresh token is present and the keys are new; a caller's own grant_type raises DuplicateParameter(grant_type), and otherwise a missing refresh token raises MissingParameter(refresh_token); scope is in the bag iff present |
| HttpRequestMessageTokenExtensions.GrantParameters | src/Client/Extensions/HttpRequestMessage/HttpRequestMessageTokenExtensions.cs:10-60 | for every grant: succeeds iff its required values are present and its keys are new, then the bag gains exactly those keys, carries the grant's values and keeps every earlier entry; a caller's own grant_type is always the first error |
| HttpRequestMessageTokenExtensions.SetTokenRequestEffect | src/Client/Extensions/HttpRequestMessage/HttpRequestMessageTokenExtensions.cs:65-89 | grant_type is added from GrantType only when absent (an absent key with a missing GrantType raises, leaving the bag as it was); MissingClientId exactly when the bag lacks client_id and ClientId is missing, leaving the bag with grant_type added; both errors leave the message untouched; past both checks the call succeeds exactly when the credential step does, and otherwise raises its failure as CredentialsFailed; past both checks the Authorization header is the one the credential helper set (the old one if it set none) and the credential keys of the bag are exactly the helper's; the URI is set only for a present address, the method is POST, Accept is exactly application/json, and on success the content is the bag after the credential step; the caller's other parameters are kept |
| HttpRequestMessageTokenExtensions.SetTokenRequest | src/Client/Extensions/HttpRequestMessage/HttpRequestMessageTokenExtensions.cs:65-89 | the in-place builder leaves exactly SetTokenRequestEffect's message and raises exactly its error, mutating the bag of the request it is given (no clone) |
| HttpRequestMessageTokenExtensions.GrantBuild | src/Client/Extensions/HttpRequestMessage/HttpRequestMessageTokenExtensions.cs:10-63 | a grant parameter error leaves the message untouched; then MissingClientId is raised exactly when the bag lacks client_id and ClientId is missing, also with the message untouched; past both the build succeeds exactly when the credential step does, and the Authorization header is the one the credential helper set (the old one if it set none); on success the message is POST with Accept application/json, the URI rule holds, and the content carries the grant's own grant_type and values, the helper's credential entries exactly, and exactly the caller's keys plus the grant's on every non-credential name |
| HttpRequestMessageTokenExtensions.CarriesIgnoresCredentials | src/Client/Extensions/HttpRequestMessage/HttpRequestMessageTokenExtensions.cs:87-88 | whatever the credential step does to credential keys, the grant's parameters survive into the content |
| HttpRequestMessageTokenExtensions.GrantTypeNotConsulted | src/Client/Extensions/HttpRequestMessage/HttpRequestMessageTokenExtensions.cs:67-70 | once grant_type is in the bag, SetTokenRequest's result does not depend on GrantType, so the builder's grant constant is what is sent |
| HttpRequestMessageTokenExtensions.AddClientCredentialsParameters | src/Client/Extensions/HttpRequestMessage/HttpRequestMessageTokenExtensions.cs:14-15 | the in-place additions on the clone's bag, in the source's order, raise exactly ClientCredentialsParameters's error and otherwise leave exactly its bag |
| HttpRequestMessageTokenExtensions.SetClientCredentialsTokenRequest | src/Client/Extensions/HttpRequestMessage/HttpRequestMessageTokenExtensions.cs:10-18 | the message and error are GrantBuild's for the client-credentials grant, and the caller's request and bag are unchanged |
| HttpRequestMessageTokenExtensions.AddDeviceCodeParameters | src/Client/Extensions/HttpRequestMessage/HttpRequestMessageTokenExtensions.cs:24-25 | the in-place additions on the clone's bag, in the source's order, raise exactly DeviceCodeParameters's error and otherwise leave exactly its bag |
| HttpRequestMessageTokenExtensions.SetDeviceTokenRequest | src/Client/Extensions/HttpRequestMessage/HttpRequestMessageTokenExtensions.cs:20-28 | the message and error are GrantBuild's for the device-code grant, and the caller's request and bag are unchanged |
| HttpRequestMessageTokenExtensions.AddPasswordParameters | src/Client/Extensions/HttpRequestMessage/HttpRequestMessageTokenExtensions.cs:34-37 | the in-place additions on the clone's bag, in the source's order, raise exactly PasswordParameters's error and otherwise leave exactly its bag |
| HttpRequestMessageTokenExtensions.SetPasswordTokenRequest | src/Client/Extensions/HttpRequestMessage/HttpRequestMessageTokenExtensions.cs:30-40 | the message and error are GrantBuild's for the password grant, and the caller's request and bag are unchanged |
| HttpRequestMessageTokenExtensions.AddAuthorizationCodeParameters | src/Client/Extensions/HttpRequestMessage/HttpRequestMessageTokenExtensions.cs:46-49 | the in-place additions on the clone's bag, in the source's order, raise exactly AuthorizationCodeParameters's error and otherwise leave exactly its bag |
| HttpRequestMessageTokenExtensions.SetAuthorizationCodeTokenRequest | src/Client/Extensions/HttpRequestMessage/HttpRequestMessageTokenExtensions.cs:42-52 | the message and error are GrantBuild's for the authorization-code grant, and the caller's request and bag are unchanged |
| HttpRequestMessageTokenExtensions.AddRefreshTokenParameters | src/Client/Extensions/HttpRequestMessage/HttpRequestMessageTokenExtensions.cs:58-60 | the in-place additions on the clone's bag, in the source's order, raise exactly RefreshTokenParameters's error and otherwise leave exactly its bag |
| HttpRequestMessageTokenExtensions.SetRefreshTokenRequest | src/Client/Extensions/HttpRequestMessage/HttpRequestMessageTokenExtensions.cs:54-63 | the message and error are GrantBuild's for the refresh-token grant, and the caller's request and bag are unchanged |
| HttpRequestMessageTokenIntrospectionExtensions.IntrospectionBuild | src/Client/Extensions/HttpRequestMessage/HttpRequestMessageIntrospectionExtensions.cs:10-29 | URI rule, POST and Accept application/json hold even when an error follows, and so does the Authorization header the credential helper set (the old one if it set none); the build succeeds exactly when the credential step does, the token is present and token/token_type_hint are new keys; a credential failure is raised first, then a missing token raises MissingParameter(token), never MissingClientId; an error leaves the content unassigned; on success the content holds token = the caller's token, token_type_hint iff present, the helper's credential entries exactly, and the caller's other parameters; off the credential keys the content has exactly the caller's keys plus token and, when present, token_type_hint |
| HttpRequestMessageTokenIntrospectionExtensions.IntrospectionParameters | src/Client/Extensions/HttpRequestMessage/HttpRequestMessageIntrospectionExtensions.cs:25-26 | succeeds iff the token is present and token, and token_type_hint when present, are new keys; a missing token raises MissingParameter(token); then the bag gains exactly those keys with the caller's values and keeps every earlier entry |
| HttpRequestMessageTokenIntrospectionExtensions.AddIntrospectionParameters | src/Client/Extensions/HttpRequestMessage/HttpRequestMessageIntrospectionExtensions.cs:25-26 | the in-place additions on the clone's bag raise exactly IntrospectionParameters's error and otherwise leave exactly its bag |
| HttpRequestMessageTokenIntrospectionExtensions.SetTokenIntrospectionRequest | src/Client/Extensions/HttpRequestMessage/HttpRequestMessageIntrospectionExtensions.cs:10-29 | the step-by-step builder leaves exactly IntrospectionBuild's message and error, working on a clone so the caller's request and bag are unchanged |
| HttpRequestMessageUserInfoExtensions.UserInfoBuild | src/Client/Extensions/HttpRequestMessage/HttpRequestMessageUserInfoExtensions.cs:10-24 | raises MissingToken iff the token is missing, and then the message is untouched; otherwise the URI rule holds, the method is GET, Accept is exactly application/json, Authorization is Bearer with the token, and the content is not touched |
| HttpRequestMessageUserInfoExtensions.SetUserInfoRequest | src/Client/Extensions/HttpRequestMessage/HttpRequestMessageUserInfoExtensions.cs:10-24 | the builder leaves exactly UserInfoBuild's message and error and never reads or changes the request's bag |
| HttpClientTokenRequestExtensions.SendInternal | src/Client/Extensions/HttpClientTokenRequestExtensions.cs:158-171 | the response is FromTransport(TokenResponse) of sending the message: an exception is returned as FromException, never rethrown |
| HttpClientTokenRequestExtensions.GrantTokenRun | src/Client/Extensions/HttpClientTokenRequestExtensions.cs:26-92 | a grant call escapes iff its builder raises, and then nothing is sent; otherwise exactly the built message, carrying the grant's parameters, is sent once and the transport outcome is returned as a TokenResponse |
| HttpClientTokenRequestExtensions.SendBuilt | src/Client/Extensions/HttpClientTokenRequestExtensions.cs:29-31 | a builder error escapes before SendInternal; otherwise the message goes through SendInternal |
| HttpClientTokenRequestExtensions.RequestClientCredentialsToken | src/Client/Extensions/HttpClientTokenRequestExtensions.cs:26-32 | a fresh message is built once by the client-credentials builder and then sent: the run is GrantTokenRun's |
| HttpClientTokenRequestExtensions.RequestDeviceToken | src/Client/Extensions/HttpClientTokenRequestExtensions.cs:41-47 | a fresh message is built once by the device-code builder and then sent: the run is GrantTokenRun's |
| HttpClientTokenRequestExtensions.RequestPasswordToken | src/Client/Extensions/HttpClientTokenRequestExtensions.cs:56-62 | a fresh message is built once by the password builder and then sent: the run is GrantTokenRun's |
| HttpClientTokenRequestExtensions.RequestAuthorizationCodeToken | src/Client/Extensions/HttpClientTokenRequestExtensions.cs:71-77 | a fresh message is built once by the authorization-code builder and then sent: the run is GrantTokenRun's |
| HttpClientTokenRequestExtensions.RequestRefreshToken | src/Client/Extensions/HttpClientTokenRequestExtensions.cs:86-92 | a fresh message is built once by the refresh-token builder and then sent: the run is GrantTokenRun's |
| HttpClientTokenRequestExtensions.TokenCall | src/Client/Extensions/HttpClientTokenRequestExtensions.cs:101-106 | the caller's bag ends as SetTokenRequestEffect leaves it, even when the call escapes; the call escapes exactly when the builder raises, with nothing sent; otherwise the built message is sent once; the run satisfies RoutesErrors for TokenResponse, so a transport exception is returned, never thrown |
| HttpClientTokenRequestExtensions.RequestToken | src/Client/Extensions/HttpClientTokenRequestExtensions.cs:101-116 | the generic token call works on the caller's own request: the caller's bag and the run are exactly TokenCall's |
| HttpClientTokenRequestExtensions.RequestTokenRaw | src/Client/Extensions/HttpClientTokenRequestExtensions.cs:127-138 | a null dictionary escapes with NullParameters before anything else; otherwise the caller's dictionary itself is the new request's bag and ends as TokenCall says for a request with only the address and that dictionary |
| HttpClientTokenRequestExtensions.RequestTokenMutatesCallerBag | src/Client/Extensions/HttpClientTokenRequestExtensions.cs:101-115 | the caller's bag gains grant_type = GrantType, even when the call then escapes with MissingClientId |
| HttpClientTokenRequestExtensions.RawWithoutGrantTypeEscapes | src/Client/Extensions/HttpClientTokenRequestExtensions.cs:131-137 | a raw dictionary without grant_type escapes with MissingParameter(grant_type) and is left unchanged |
| HttpClientTokenRequestExtensions.RawWithoutClientIdEscapes | src/Client/Extensions/HttpClientTokenRequestExtensions.cs:131-137 | a raw dictionary with grant_type but no client_id escapes with MissingClientId and is left unchanged |
| HttpClientTokenRequestExtensions.GrantTokenRoutesErrors | src/Client/Extensions/HttpClientTokenRequestExtensions.cs:158-171 | a grant call escapes exactly when nothing reached the network, and a sent message's outcome comes back as a TokenResponse |
| HttpClientTokenIntrospectionExtensions.IntrospectRun | src/Client/Extensions/HttpClientTokenIntrospectionExtensions.cs:25-41 | a builder error escapes with no send; otherwise exactly IntrospectionBuild's message is sent once and its outcome returned as a TokenIntrospectionResponse |
| HttpClientTokenIntrospectionExtensions.IntrospectToken | src/Client/Extensions/HttpClientTokenIntrospectionExtensions.cs:25-41 | the call on a fresh message produces exactly IntrospectRun's run |
| HttpClientTokenIntrospectionExtensions.IntrospectRoutesErrors | src/Client/Extensions/HttpClientTokenIntrospectionExtensions.cs:28-40 | the introspection call escapes exactly when nothing reached the network, and a transport exception is returned, not rethrown |
| HttpClientTokenRevocationExtensions.RevocationClone | src/Client/Extensions/HttpClientTokenRevocationExtensions.cs:42-46 | the clone is POST with token = the caller's token and token_type_hint iff present, the caller's parameters kept; it fails iff the token is missing or a key is taken, and a missing token raises MissingParameter(token) |
| HttpClientTokenRevocationExtensions.RevokeTokenRun | src/Client/Extensions/HttpClientTokenRevocationExtensions.cs:37-65 | a parameter error escapes before Prepare; otherwise the clone goes through DispatchRun as a TokenRevocationResponse call |
| HttpClientTokenRevocationExtensions.RevokeTokenWithVisitor | src/Client/Extensions/HttpClientTokenRevocationExtensions.cs:37-65 | the call produces exactly RevokeTokenRun's run and leaves the caller's request, bag and message unchanged |
| HttpClientTokenRevocationExtensions.RevokeToken | src/Client/Extensions/HttpClientTokenRevocationExtensions.cs:24-27 | the overload without a visitor is RevokeTokenRun with no visitor |
| HttpClientTokenRevocationExtensions.RevokeTokenRoutesErrors | src/Client/Extensions/HttpClientTokenRevocationExtensions.cs:45-64 | a revocation escapes exactly when nothing reached the network, a missing token escapes before any step, and a transport exception is returned, not rethrown |
| HttpClientDeviceFlowExtensions.DeviceAuthorizationClone | src/Client/Extensions/HttpClientDeviceFlowExtensions.cs:42-45 | the clone is POST, scope is added iff present and nothing else is; it fails only for a present scope whose key is taken |
| HttpClientDeviceFlowExtensions.DeviceAuthorizationRun | src/Client/Extensions/HttpClientDeviceFlowExtensions.cs:37-64 | a parameter error escapes before Prepare; otherwise the clone goes through DispatchRun as a DeviceAuthorizationResponse call |
| HttpClientDeviceFlowExtensions.RequestDeviceAuthorizationWithVisitor | src/Client/Extensions/HttpClientDeviceFlowExtensions.cs:37-64 | the call produces exactly DeviceAuthorizationRun's run and leaves the caller's request, bag and message unchanged |
| HttpClientDeviceFlowExtensions.RequestDeviceAuthorization | src/Client/Extensions/HttpClientDeviceFlowExtensions.cs:24-27 | the overload without a visitor is DeviceAuthorizationRun with no visitor |
| HttpClientDeviceFlowExtensions.DeviceAuthorizationRoutesErrors | src/Client/Extensions/HttpClientDeviceFlowExtensions.cs:53-63 | a device authorization call escapes exactly when nothing reached the network, and a transport exception is returned, not rethrown |
| HttpClientUserInfoExtensions.UserInfoClone | src/Client/Extensions/HttpClientUserInfoExtensions.cs:44-47 | the clone's message is the caller's with only the method set to GET and the Authorization header set to Bearer with the token; its parameters, address and credentials are the caller's |
| HttpClientUserInfoExtensions.UserInfoRun | src/Client/Extensions/HttpClientUserInfoExtensions.cs:37-66 | the call escapes with MissingToken, before the clone, Prepare, the visitor or the send, exactly when the token is missing; otherwise the clone goes through DispatchRun as a UserInfoResponse call |
| HttpClientUserInfoExtensions.GetUserInfoWithVisitor | src/Client/Extensions/HttpClientUserInfoExtensions.cs:37-66 | the call produces exactly UserInfoRun's run and leaves the caller's request, bag and message unchanged |
| HttpClientUserInfoExtensions.GetUserInfo | src/Client/Extensions/HttpClientUserInfoExtensions.cs:24-27 | the overload without a visitor is UserInfoRun with no visitor |
| HttpClientUserInfoExtensions.UserInfoRoutesErrors | src/Client/Extensions/HttpClientUserInfoExtensions.cs:55-65 | a userinfo call escapes exactly when nothing reached the network, and a transport exception is returned, not rethrown |

## Left out

- **Transport.** The HTTP transport, async/await and cancellation tokens are not modelled. The send is a caller-chosen function from message to outcome, so every outcome is covered. `RequestTokenRawAsync` does not forward its cancellation token (src/Client/Extensions/HttpClientTokenRequestExtensions.cs:137); with cancellation out of scope, this is not visible in the model.
- **URIs.** `new Uri(address)` is not parsed: the address string becomes the request URI unchanged, so a malformed address does not throw in the model.
- **Visitor.** The request visitor may change the outgoing message in any way or throw, and its exception escapes. A change it makes to the message before it throws is not kept: the message part then holds what Prepare left. Any other side effect is not modelled.
- **Responses.** `ProtocolResponse.FromException` and `FromHttpResponseAsync` are uninterpreted constructors. Their classification of the response and their JSON parsing are not part of this model.
- **Helpers implemented elsewhere.** The bodies of `PopulateClientCredentials`, `Prepare`, `Clone`, `SetBearerToken`, `AddRequired`/`AddOptional` and `FormUrlEncodedContent` are outside the model:
  - the credential step may change only the four credential parameters and the Authorization header, or fail; how it chooses (Basic header, base64) is left out;
  - `Prepare` may fail or rewrite the message, but the model keeps the HTTP method it was given;
  - form content is the parameter map itself, with no encoding and no entry order.
- **Request properties.** A `Run` records the steps and messages of a call but not the request's other properties or headers beyond Accept and Authorization.
- **Discovery cache.** `IDiscoveryCache` and the test of its implementation are left out. Their substance is time-based expiry and concurrent refresh, and the implementation is not part of this model.
- **Test infrastructure.** The path-resolution helper and the Task helper of the unit tests are left out.
