/**
 * HttpRequestMessageTokenExtensions: the five per-grant builders, which add
 * their parameters to a clone of the caller's request, and SetTokenRequest,
 * which works on the request it is given.
 */
module HttpRequestMessageTokenExtensions {
  import opened Wrappers
  import opened OidcConstants
  import opened Parameters
  import opened Http
  import opened Protocol

  /** The grant-specific properties of each token request subtype. */
  datatype Grant =
    | ClientCredentials(scope: Option<string>)
    | DeviceCode(deviceCode: Option<string>)
    | Password(userName: Option<string>, password: Option<string>, scope: Option<string>)
    | AuthorizationCode(code: Option<string>, redirectUri: Option<string>, codeVerifier: Option<string>)
    | RefreshToken(refreshToken: Option<string>, scope: Option<string>)

  function GrantTypeOf(grant: Grant): string {
    match grant
    case ClientCredentials(_) => ClientCredentialsGrant
    case DeviceCode(_) => DeviceCodeGrant
    case Password(_, _, _) => PasswordGrant
    case AuthorizationCode(_, _, _) => AuthorizationCodeGrant
    case RefreshToken(_, _) => RefreshTokenGrant
  }

  function IfPresent(key: string, value: Option<string>): set<string> {
    if IsPresent(value) then {key} else {}
  }

  /** The keys a builder adds: grant_type, the required ones (password always), and the present optional ones. */
  function AddedKeys(grant: Grant): set<string> {
    match grant
    case ClientCredentials(scope) => {GrantTypeKey} + IfPresent(ScopeKey, scope)
    case DeviceCode(_) => {GrantTypeKey, DeviceCodeKey}
    case Password(_, _, scope) => {GrantTypeKey, UserNameKey, PasswordKey} + IfPresent(ScopeKey, scope)
    case AuthorizationCode(_, _, verifier) => {GrantTypeKey, CodeKey, RedirectUriKey} + IfPresent(CodeVerifierKey, verifier)
    case RefreshToken(_, scope) => {GrantTypeKey, RefreshTokenKey} + IfPresent(ScopeKey, scope)
  }

  /** The values a builder must be given; an empty password is allowed. */
  predicate RequiredPresent(grant: Grant) {
    match grant
    case ClientCredentials(_) => true
    case DeviceCode(deviceCode) => IsPresent(deviceCode)
    case Password(userName, _, _) => IsPresent(userName)
    case AuthorizationCode(code, redirectUri, _) => IsPresent(code) && IsPresent(redirectUri)
    case RefreshToken(refreshToken, _) => IsPresent(refreshToken)
  }

  predicate Holds(bag: Bag, key: string, value: Option<string>) {
    value.Some? && key in bag && bag[key] == value.value
  }

  predicate HoldsIfPresent(bag: Bag, key: string, value: Option<string>) {
    IsPresent(value) ==> Holds(bag, key, value)
  }

  /** `bag` carries the grant type and the grant's own parameters with the caller's values. */
  predicate Carries(bag: Bag, grant: Grant) {
    && GrantTypeKey in bag && bag[GrantTypeKey] == GrantTypeOf(grant)
    && match grant
       case ClientCredentials(scope) => HoldsIfPresent(bag, ScopeKey, scope)
       case DeviceCode(deviceCode) => Holds(bag, DeviceCodeKey, deviceCode)
       case Password(userName, password, scope) =>
         && Holds(bag, UserNameKey, userName)
         && PasswordKey in bag && bag[PasswordKey] == (if IsPresent(password) then password.value else "")
         && HoldsIfPresent(bag, ScopeKey, scope)
       case AuthorizationCode(code, redirectUri, verifier) =>
         Holds(bag, CodeKey, code) && Holds(bag, RedirectUriKey, redirectUri) && HoldsIfPresent(bag, CodeVerifierKey, verifier)
       case RefreshToken(refreshToken, scope) =>
         Holds(bag, RefreshTokenKey, refreshToken) && HoldsIfPresent(bag, ScopeKey, scope)
  }

  /** The grant values are present strings, so AddRequired accepts them. */
  lemma GrantValuesArePresent()
    ensures IsPresent(Some(ClientCredentialsGrant)) && IsPresent(Some(DeviceCodeGrant)) && IsPresent(Some(PasswordGrant))
    ensures IsPresent(Some(AuthorizationCodeGrant)) && IsPresent(Some(RefreshTokenGrant))
  {
    assert !IsWhiteSpace(ClientCredentialsGrant[0]);
    assert !IsWhiteSpace(DeviceCodeGrant[0]);
    assert !IsWhiteSpace(PasswordGrant[0]);
    assert !IsWhiteSpace(AuthorizationCodeGrant[0]);
    assert !IsWhiteSpace(RefreshTokenGrant[0]);
  }

  /** The parameter names the builders use are pairwise distinct. */
  lemma KeysDistinct()
    ensures GrantTypeKey != ScopeKey && GrantTypeKey != DeviceCodeKey && GrantTypeKey != UserNameKey
    ensures GrantTypeKey != PasswordKey && GrantTypeKey != CodeKey && GrantTypeKey != RedirectUriKey
    ensures GrantTypeKey != CodeVerifierKey && GrantTypeKey != RefreshTokenKey
    ensures UserNameKey != PasswordKey && UserNameKey != ScopeKey && PasswordKey != ScopeKey
    ensures CodeKey != RedirectUriKey && CodeKey != CodeVerifierKey && RedirectUriKey != CodeVerifierKey
    ensures RefreshTokenKey != ScopeKey
  {
    assert GrantTypeKey[0] == 'g' && ScopeKey[0] == 's' && DeviceCodeKey[0] == 'd' && UserNameKey[0] == 'u';
    assert PasswordKey[0] == 'p' && CodeKey[0] == 'c' && RedirectUriKey[0] == 'r' && RefreshTokenKey[0] == 'r';
    assert |CodeKey| != |CodeVerifierKey| && RedirectUriKey[2] != RefreshTokenKey[2];
  }

  // The additions each per-grant builder makes to the clone's bag, in the source's order.

  function ClientCredentialsParameters(bag: Bag, scope: Option<string>): (r: Result<Bag, ConfigError>)
    ensures var grant := ClientCredentials(scope);
      && (r.Ok? <==> RequiredPresent(grant) && AddedKeys(grant) !! bag.Keys)
      && (r.Ok? ==> r.value.Keys == bag.Keys + AddedKeys(grant) && Carries(r.value, grant))
      && (r.Ok? ==> forall k :: k in bag ==> r.value[k] == bag[k])
    // grant_type is added first, so a caller's own grant_type is the first error
    ensures GrantTypeKey in bag ==> r == Err(DuplicateParameter(GrantTypeKey))
  {
    GrantValuesArePresent();
    KeysDistinct();
    var b :- WithRequired(bag, GrantTypeKey, Some(ClientCredentialsGrant), false);
    WithOptional(b, ScopeKey, scope)
  }

  function DeviceCodeParameters(bag: Bag, deviceCode: Option<string>): (r: Result<Bag, ConfigError>)
    ensures var grant := DeviceCode(deviceCode);
      && (r.Ok? <==> RequiredPresent(grant) && AddedKeys(grant) !! bag.Keys)
      && (r.Ok? ==> r.value.Keys == bag.Keys + AddedKeys(grant) && Carries(r.value, grant))
      && (r.Ok? ==> forall k :: k in bag ==> r.value[k] == bag[k])
    // grant_type is added first, so a caller's own grant_type is the first error
    ensures GrantTypeKey in bag ==> r == Err(DuplicateParameter(GrantTypeKey))
    ensures GrantTypeKey !in bag && IsMissing(deviceCode) ==> r == Err(MissingParameter(DeviceCodeKey))
  {
    GrantValuesArePresent();
    KeysDistinct();
    var b :- WithRequired(bag, GrantTypeKey, Some(DeviceCodeGrant), false);
    WithRequired(b, DeviceCodeKey, deviceCode, false)
  }

  function PasswordParameters(bag: Bag, userName: Option<string>, password: Option<string>, scope: Option<string>): (r: Result<Bag, ConfigError>)
    ensures var grant := Password(userName, password, scope);
      && (r.Ok? <==> RequiredPresent(grant) && AddedKeys(grant) !! bag.Keys)
      && (r.Ok? ==> r.value.Keys == bag.Keys + AddedKeys(grant) && Carries(r.value, grant))
      && (r.Ok? ==> forall k :: k in bag ==> r.value[k] == bag[k])
    // grant_type is added first, so a caller's own grant_type is the first error
    ensures GrantTypeKey in bag ==> r == Err(DuplicateParameter(GrantTypeKey))
    ensures GrantTypeKey !in bag && IsMissing(userName) ==> r == Err(MissingParameter(UserNameKey))
  {
    GrantValuesArePresent();
    KeysDistinct();
    var b :- WithRequired(bag, GrantTypeKey, Some(PasswordGrant), false);
    var fields := {UserNameKey, PasswordKey} + IfPresent(ScopeKey, scope);
    assert AddedKeys(Password(userName, password, scope)) == {GrantTypeKey} + fields;
    assert fields !! b.Keys <==> fields !! bag.Keys;
    PasswordFields(b, userName, password, scope)
  }

  /** username, password (empty allowed) and the optional scope, added after grant_type. */
  function PasswordFields(bag: Bag, userName: Option<string>, password: Option<string>, scope: Option<string>): (r: Result<Bag, ConfigError>)
    ensures r.Ok? <==> IsPresent(userName) && ({UserNameKey, PasswordKey} + IfPresent(ScopeKey, scope)) !! bag.Keys
    ensures r.Ok? ==>
      && r.value.Keys == bag.Keys + {UserNameKey, PasswordKey} + IfPresent(ScopeKey, scope)
      && Holds(r.value, UserNameKey, userName)
      && r.value[PasswordKey] == (if IsPresent(password) then password.value else "")
      && HoldsIfPresent(r.value, ScopeKey, scope)
      && (forall k :: k in bag ==> r.value[k] == bag[k])
    ensures IsMissing(userName) ==> r == Err(MissingParameter(UserNameKey))
  {
    KeysDistinct();
    var b1 :- WithRequired(bag, UserNameKey, userName, false);
    var b2 :- WithRequired(b1, PasswordKey, password, true);
    WithOptional(b2, ScopeKey, scope)
  }

  function AuthorizationCodeParameters(bag: Bag, code: Option<string>, redirectUri: Option<string>, verifier: Option<string>): (r: Result<Bag, ConfigError>)
    ensures var grant := AuthorizationCode(code, redirectUri, verifier);
      && (r.Ok? <==> RequiredPresent(grant) && AddedKeys(grant) !! bag.Keys)
      && (r.Ok? ==> r.value.Keys == bag.Keys + AddedKeys(grant) && Carries(r.value, grant))
      && (r.Ok? ==> forall k :: k in bag ==> r.value[k] == bag[k])
    // grant_type is added first, so a caller's own grant_type is the first error
    ensures GrantTypeKey in bag ==> r == Err(DuplicateParameter(GrantTypeKey))
    ensures GrantTypeKey !in bag && IsMissing(code) ==> r == Err(MissingParameter(CodeKey))
    ensures GrantTypeKey !in bag && IsPresent(code) && CodeKey !in bag && IsMissing(redirectUri) ==> r == Err(MissingParameter(RedirectUriKey))
  {
    GrantValuesArePresent();
    KeysDistinct();
    var b :- WithRequired(bag, GrantTypeKey, Some(AuthorizationCodeGrant), false);
    var fields := {CodeKey, RedirectUriKey} + IfPresent(CodeVerifierKey, verifier);
    assert AddedKeys(AuthorizationCode(code, redirectUri, verifier)) == {GrantTypeKey} + fields;
    assert fields !! b.Keys <==> fields !! bag.Keys;
    AuthorizationCodeFields(b, code, redirectUri, verifier)
  }

  /** code, redirect_uri and the optional code_verifier, added after grant_type. */
  function AuthorizationCodeFields(bag: Bag, code: Option<string>, redirectUri: Option<string>, verifier: Option<string>): (r: Result<Bag, ConfigError>)
    ensures r.Ok? <==> IsPresent(code) && IsPresent(redirectUri) && ({CodeKey, RedirectUriKey} + IfPresent(CodeVerifierKey, verifier)) !! bag.Keys
    ensures r.Ok? ==>
      && r.value.Keys == bag.Keys + {CodeKey, RedirectUriKey} + IfPresent(CodeVerifierKey, verifier)
      && Holds(r.value, CodeKey, code) && Holds(r.value, RedirectUriKey, redirectUri)
      && HoldsIfPresent(r.value, CodeVerifierKey, verifier)
      && (forall k :: k in bag ==> r.value[k] == bag[k])
    ensures IsMissing(code) ==> r == Err(MissingParameter(CodeKey))
    ensures IsPresent(code) && CodeKey !in bag && IsMissing(redirectUri) ==> r == Err(MissingParameter(RedirectUriKey))
  {
    KeysDistinct();
    var b1 :- WithRequired(bag, CodeKey, code, false);
    var b2 :- WithRequired(b1, RedirectUriKey, redirectUri, false);
    WithOptional(b2, CodeVerifierKey, verifier)
  }

  function RefreshTokenParameters(bag: Bag, refreshToken: Option<string>, scope: Option<string>): (r: Result<Bag, ConfigError>)
    ensures var grant := RefreshToken(refreshToken, scope);
      && (r.Ok? <==> RequiredPresent(grant) && AddedKeys(grant) !! bag.Keys)
      && (r.Ok? ==> r.value.Keys == bag.Keys + AddedKeys(grant) && Carries(r.value, grant))
      && (r.Ok? ==> forall k :: k in bag ==> r.value[k] == bag[k])
    // grant_type is added first, so a caller's own grant_type is the first error
    ensures GrantTypeKey in bag ==> r == Err(DuplicateParameter(GrantTypeKey))
    ensures GrantTypeKey !in bag && IsMissing(refreshToken) ==> r == Err(MissingParameter(RefreshTokenKey))
  {
    GrantValuesArePresent();
    KeysDistinct();
    var b1 :- WithRequired(bag, GrantTypeKey, Some(RefreshTokenGrant), false);
    assert RefreshTokenKey in b1 <==> RefreshTokenKey in bag;
    var b2 :- WithRequired(b1, RefreshTokenKey, refreshToken, false);
    assert AddedKeys(RefreshToken(refreshToken, scope)) == {GrantTypeKey, RefreshTokenKey} + IfPresent(ScopeKey, scope);
    assert ScopeKey in b2 <==> ScopeKey in bag;
    WithOptional(b2, ScopeKey, scope)
  }

  /** The clone's bag after the builder of `grant` has added its parameters. */
  function GrantParameters(bag: Bag, grant: Grant): (r: Result<Bag, ConfigError>)
    ensures r.Ok? <==> RequiredPresent(grant) && AddedKeys(grant) !! bag.Keys
    ensures r.Ok? ==> r.value.Keys == bag.Keys + AddedKeys(grant) && Carries(r.value, grant)
    ensures r.Ok? ==> forall k :: k in bag ==> r.value[k] == bag[k]
    ensures GrantTypeKey in bag ==> r == Err(DuplicateParameter(GrantTypeKey))
  {
    match grant
    case ClientCredentials(scope) => ClientCredentialsParameters(bag, scope)
    case DeviceCode(deviceCode) => DeviceCodeParameters(bag, deviceCode)
    case Password(userName, password, scope) => PasswordParameters(bag, userName, password, scope)
    case AuthorizationCode(code, redirectUri, verifier) => AuthorizationCodeParameters(bag, code, redirectUri, verifier)
    case RefreshToken(refreshToken, scope) => RefreshTokenParameters(bag, refreshToken, scope)
  }

  /** What SetTokenRequest leaves behind: the request's bag, the message, and the exception raised. */
  datatype TokenEffect = TokenEffect(parameters: Bag, message: Message, thrown: Option<ConfigError>)

  /** `SetTokenRequest` on a request in `state` whose GrantType is `grantType`, writing into `before`. */
  function SetTokenRequestEffect(state: RequestState, grantType: Option<string>, before: Message, populate: Populate): (e: TokenEffect)
    // grant_type is added from GrantType only when the bag lacks it, and then GrantType is required
    ensures e.thrown == Some(MissingParameter(GrantTypeKey)) <==> GrantTypeKey !in state.parameters && IsMissing(grantType)
    ensures GrantTypeKey in state.parameters ==> GrantTypeKey in e.parameters && e.parameters[GrantTypeKey] == state.parameters[GrantTypeKey]
    ensures GrantTypeKey !in state.parameters && IsPresent(grantType) ==> GrantTypeKey in e.parameters && e.parameters[GrantTypeKey] == grantType.value
    // the client_id check
    ensures e.thrown == Some(MissingClientId) <==>
      (GrantTypeKey in state.parameters || IsPresent(grantType)) && ClientIdKey !in state.parameters && IsMissing(state.credentials.clientId)
    // both exceptions are raised before the message is touched; the bag is as far as the call got
    ensures e.thrown == Some(MissingParameter(GrantTypeKey)) || e.thrown == Some(MissingClientId) ==> e.message == before
    ensures e.thrown == Some(MissingParameter(GrantTypeKey)) ==> e.parameters == state.parameters
    ensures e.thrown == Some(MissingClientId) ==>
      e.parameters == if GrantTypeKey in state.parameters then state.parameters else state.parameters[GrantTypeKey := grantType.value]
    // past both checks, the call succeeds exactly when the credential step does, and its failure is raised
    ensures var granted := if GrantTypeKey in state.parameters then state.parameters
                           else state.parameters[GrantTypeKey := if grantType.Some? then grantType.value else ""];
      var checked := (GrantTypeKey in state.parameters || IsPresent(grantType))
                     && (ClientIdKey in state.parameters || IsPresent(state.credentials.clientId));
      var failure := populate(state.credentials, granted).failure;
      && (e.thrown.None? <==> checked && failure.None?)
      && (checked && failure.Some? ==> e.thrown == Some(CredentialsFailed(failure.value)))
      // past both checks the helper's header and credential entries reach the message and the bag
      && (checked ==>
            && e.message.authorization == PlacedAuthorization(populate(state.credentials, granted), before.authorization)
            && CredentialsFrom(e.parameters, populate(state.credentials, granted).parameters))
    // otherwise URI, method and Accept are set, and Content is the bag after the credential step
    ensures e.thrown.None? || e.thrown.value.CredentialsFailed? ==>
      && e.message.requestUri == (if IsPresent(state.address) then state.address else before.requestUri)
      && e.message.verb == Post
      && e.message.accept == [ApplicationJson]
      && e.message.content == (if e.thrown.None? then Some(e.parameters) else before.content)
    // no other non-credential parameter is added or changed
    ensures forall k :: k !in CredentialParameters && k != GrantTypeKey ==>
      (k in e.parameters <==> k in state.parameters) && (k in state.parameters ==> e.parameters[k] == state.parameters[k])
  {
    var granted := if GrantTypeKey in state.parameters then Ok(state.parameters)
                   else WithRequired(state.parameters, GrantTypeKey, grantType, false);
    if granted.Err? then TokenEffect(state.parameters, before, Some(granted.error))
    else
      var bag := granted.value;
      if ClientIdKey !in bag && IsMissing(state.credentials.clientId) then TokenEffect(bag, before, Some(MissingClientId))
      else
        var addressed := if IsPresent(state.address) then before.(requestUri := state.address) else before;
        var posted := addressed.(verb := Post, accept := [ApplicationJson]);
        var p := CredentialStep(populate, state.credentials, bag, posted.authorization);
        var credentialed := posted.(authorization := p.authorization);
        if p.failure.Some? then TokenEffect(p.parameters, credentialed, Some(CredentialsFailed(p.failure.value)))
        else TokenEffect(p.parameters, credentialed.(content := Some(p.parameters)), None)
  }

  /** `httpRequest.SetTokenRequest(request)`: it changes `request`'s own bag, not a copy. */
  method SetTokenRequest(httpRequest: HttpRequest, request: ProtocolRequest, grantType: Option<string>, populate: Populate)
    returns (thrown: Option<ConfigError>)
    modifies httpRequest, request.parameters
    ensures TokenEffect(request.parameters.entries, httpRequest.Wire(), thrown)
         == SetTokenRequestEffect(old(request.State()), grantType, old(httpRequest.Wire()), populate)
  {
    if GrantTypeKey !in request.parameters.entries {
      thrown := request.parameters.AddRequired(GrantTypeKey, grantType, false);
      if thrown.Some? {
        return;
      }
    }
    if ClientIdKey !in request.parameters.entries {
      if IsMissing(request.credentials.clientId) {
        return Some(MissingClientId);
      }
    }
    if IsPresent(request.address) {
      httpRequest.requestUri := request.address;
    }
    httpRequest.verb := Post;
    httpRequest.AcceptOnly(ApplicationJson);
    thrown := PopulateClientCredentials(request, httpRequest, populate);
    if thrown.Some? {
      return;
    }
    httpRequest.content := Some(request.parameters.entries);
  }

  /** What a per-grant builder leaves behind: the message, and the exception raised. */
  datatype Built = Built(message: Message, thrown: Option<ConfigError>)

  /**
   * A per-grant builder: parameters added to a clone of `state`, then
   * SetTokenRequest on the clone. The clone carries no GrantType of its own;
   * grant_type is already in its bag (GrantTypeNotConsulted).
   */
  function GrantBuild(grant: Grant, state: RequestState, before: Message, populate: Populate): (b: Built)
    // a missing required value or a duplicate key fails before the message is touched
    ensures GrantParameters(state.parameters, grant).Err? ==> b == Built(before, Some(GrantParameters(state.parameters, grant).error))
    // then SetTokenRequest's client_id check, also before the message is touched
    ensures GrantParameters(state.parameters, grant).Ok? ==>
      && (b.thrown == Some(MissingClientId) <==> ClientIdKey !in state.parameters && IsMissing(state.credentials.clientId))
      && (b.thrown == Some(MissingClientId) ==> b.message == before)
    // past both, the build succeeds exactly when the credential step does, and its failure is raised
    ensures GrantParameters(state.parameters, grant).Ok? && (ClientIdKey in state.parameters || IsPresent(state.credentials.clientId)) ==>
      var q := populate(state.credentials, GrantParameters(state.parameters, grant).value);
      && (b.thrown.None? <==> q.failure.None?)
      && (q.failure.Some? ==> b.thrown == Some(CredentialsFailed(q.failure.value)))
      // the helper's header reaches the message
      && b.message.authorization == PlacedAuthorization(q, before.authorization)
    ensures b.thrown.None? ==>
      && GrantParameters(state.parameters, grant).Ok?
      && b.message.verb == Post
      && b.message.accept == [ApplicationJson]
      && b.message.requestUri == (if IsPresent(state.address) then state.address else before.requestUri)
      && b.message.content.Some?
    // the content carries the grant's parameters, the caller's own, and the helper's credential entries
    ensures b.thrown.None? ==>
      var content := b.message.content.value;
      && Carries(content, grant)
      && CredentialsFrom(content, populate(state.credentials, GrantParameters(state.parameters, grant).value).parameters)
      && (forall k :: k !in CredentialParameters ==> (k in content <==> k in state.parameters || k in AddedKeys(grant)))
      && (forall k :: k in state.parameters && k !in CredentialParameters ==> content[k] == state.parameters[k])
  {
    match GrantParameters(state.parameters, grant)
    case Err(e) => Built(before, Some(e))
    case Ok(bag) =>
      var e := SetTokenRequestEffect(state.(parameters := bag), None, before, populate);
      BuilderKeysAreNotCredentials();
      assert ClientIdKey in CredentialParameters;
      assert ClientIdKey in bag <==> ClientIdKey in state.parameters;
      CarriesIgnoresCredentials(bag, e.parameters, grant);
      Built(e.message, e.thrown)
  }

  /** The builders' own keys are not credential parameters. */
  lemma BuilderKeysAreNotCredentials()
    ensures GrantTypeKey !in CredentialParameters && ScopeKey !in CredentialParameters
    ensures DeviceCodeKey !in CredentialParameters && UserNameKey !in CredentialParameters
    ensures PasswordKey !in CredentialParameters && CodeKey !in CredentialParameters
    ensures RedirectUriKey !in CredentialParameters && CodeVerifierKey !in CredentialParameters
    ensures RefreshTokenKey !in CredentialParameters
  {
    assert ClientIdKey[0] == 'c' && ClientSecretKey[0] == 'c' && ClientAssertionTypeKey[0] == 'c' && ClientAssertionKey[0] == 'c';
    assert |CodeKey| != |ClientIdKey| && |CodeKey| != |ClientSecretKey| && |CodeKey| != |ClientAssertionTypeKey| && |CodeKey| != |ClientAssertionKey|;
    assert CodeVerifierKey[1] == 'o' && ClientIdKey[1] == 'l';
  }

  /** Carries speaks only of non-credential keys, so the credential step cannot disturb it. */
  lemma CarriesIgnoresCredentials(a: Bag, b: Bag, grant: Grant)
    requires Carries(a, grant)
    requires forall k :: k in a && k !in CredentialParameters ==> k in b && b[k] == a[k]
    ensures Carries(b, grant)
  {
    BuilderKeysAreNotCredentials();
  }

  /** SetTokenRequest does not look at GrantType when the bag already holds grant_type. */
  lemma GrantTypeNotConsulted(state: RequestState, g1: Option<string>, g2: Option<string>, before: Message, populate: Populate)
    requires GrantTypeKey in state.parameters
    ensures SetTokenRequestEffect(state, g1, before, populate) == SetTokenRequestEffect(state, g2, before, populate)
  {
  }

  // Each builder: clone the request, add the grant's parameters to the clone's
  // bag in the source's order (stopping at the first exception), then
  // SetTokenRequest on the clone.

  /** The parameter additions of SetClientCredentialsTokenRequest, in place on the clone's bag. */
  method AddClientCredentialsParameters(bag: ParameterBag, scope: Option<string>)
    returns (thrown: Option<ConfigError>)
    modifies bag
    ensures thrown == Raised(ClientCredentialsParameters(old(bag.entries), scope))
    ensures thrown.None? ==> bag.entries == ClientCredentialsParameters(old(bag.entries), scope).value
  {
    thrown := bag.AddRequired(GrantTypeKey, Some(ClientCredentialsGrant), false);
    if thrown.Some? {
      return;
    }
    thrown := bag.AddOptional(ScopeKey, scope);
  }

  method SetClientCredentialsTokenRequest(httpRequest: HttpRequest, request: ProtocolRequest, scope: Option<string>, populate: Populate)
    returns (thrown: Option<ConfigError>)
    modifies httpRequest
    ensures Built(httpRequest.Wire(), thrown) == GrantBuild(ClientCredentials(scope), old(request.State()), old(httpRequest.Wire()), populate)
    ensures unchanged(request, request.parameters)
  {
    ghost var state := request.State();
    var clone := request.Clone();
    thrown := AddClientCredentialsParameters(clone.parameters, scope);
    if thrown.Some? {
      return;
    }
    assert GrantParameters(state.parameters, ClientCredentials(scope)) == Ok(clone.parameters.entries);
    assert clone.State() == state.(parameters := clone.parameters.entries);
    thrown := SetTokenRequest(httpRequest, clone, None, populate);
  }

  /** The parameter additions of SetDeviceTokenRequest, in place on the clone's bag. */
  method AddDeviceCodeParameters(bag: ParameterBag, deviceCode: Option<string>)
    returns (thrown: Option<ConfigError>)
    modifies bag
    ensures thrown == Raised(DeviceCodeParameters(old(bag.entries), deviceCode))
    ensures thrown.None? ==> bag.entries == DeviceCodeParameters(old(bag.entries), deviceCode).value
  {
    thrown := bag.AddRequired(GrantTypeKey, Some(DeviceCodeGrant), false);
    if thrown.Some? {
      return;
    }
    thrown := bag.AddRequired(DeviceCodeKey, deviceCode, false);
  }

  method SetDeviceTokenRequest(httpRequest: HttpRequest, request: ProtocolRequest, deviceCode: Option<string>, populate: Populate)
    returns (thrown: Option<ConfigError>)
    modifies httpRequest
    ensures Built(httpRequest.Wire(), thrown) == GrantBuild(DeviceCode(deviceCode), old(request.State()), old(httpRequest.Wire()), populate)
    ensures unchanged(request, request.parameters)
  {
    ghost var state := request.State();
    var clone := request.Clone();
    thrown := AddDeviceCodeParameters(clone.parameters, deviceCode);
    if thrown.Some? {
      return;
    }
    assert GrantParameters(state.parameters, DeviceCode(deviceCode)) == Ok(clone.parameters.entries);
    assert clone.State() == state.(parameters := clone.parameters.entries);
    thrown := SetTokenRequest(httpRequest, clone, None, populate);
  }

  /** The parameter additions of SetPasswordTokenRequest, in place on the clone's bag. */
  method AddPasswordParameters(bag: ParameterBag, userName: Option<string>, password: Option<string>, scope: Option<string>)
    returns (thrown: Option<ConfigError>)
    modifies bag
    ensures thrown == Raised(PasswordParameters(old(bag.entries), userName, password, scope))
    ensures thrown.None? ==> bag.entries == PasswordParameters(old(bag.entries), userName, password, scope).value
  {
    thrown := bag.AddRequired(GrantTypeKey, Some(PasswordGrant), false);
    if thrown.Some? {
      return;
    }
    thrown := bag.AddRequired(UserNameKey, userName, false);
    if thrown.Some? {
      return;
    }
    thrown := bag.AddRequired(PasswordKey, password, true);
    if thrown.Some? {
      return;
    }
    thrown := bag.AddOptional(ScopeKey, scope);
  }

  method SetPasswordTokenRequest(httpRequest: HttpRequest, request: ProtocolRequest, userName: Option<string>, password: Option<string>, scope: Option<string>, populate: Populate)
    returns (thrown: Option<ConfigError>)
    modifies httpRequest
    ensures Built(httpRequest.Wire(), thrown) == GrantBuild(Password(userName, password, scope), old(request.State()), old(httpRequest.Wire()), populate)
    ensures unchanged(request, request.parameters)
  {
    ghost var state := request.State();
    var clone := request.Clone();
    thrown := AddPasswordParameters(clone.parameters, userName, password, scope);
    if thrown.Some? {
      return;
    }
    assert GrantParameters(state.parameters, Password(userName, password, scope)) == Ok(clone.parameters.entries);
    assert clone.State() == state.(parameters := clone.parameters.entries);
    thrown := SetTokenRequest(httpRequest, clone, None, populate);
  }

  /** The parameter additions of SetAuthorizationCodeTokenRequest, in place on the clone's bag. */
  method AddAuthorizationCodeParameters(bag: ParameterBag, code: Option<string>, redirectUri: Option<string>, codeVerifier: Option<string>)
    returns (thrown: Option<ConfigError>)
    modifies bag
    ensures thrown == Raised(AuthorizationCodeParameters(old(bag.entries), code, redirectUri, codeVerifier))
    ensures thrown.None? ==> bag.entries == AuthorizationCodeParameters(old(bag.entries), code, redirectUri, codeVerifier).value
  {
    thrown := bag.AddRequired(GrantTypeKey, Some(AuthorizationCodeGrant), false);
    if thrown.Some? {
      return;
    }
    thrown := bag.AddRequired(CodeKey, code, false);
    if thrown.Some? {
      return;
    }
    thrown := bag.AddRequired(RedirectUriKey, redirectUri, false);
    if thrown.Some? {
      return;
    }
    thrown := bag.AddOptional(CodeVerifierKey, codeVerifier);
  }

  method SetAuthorizationCodeTokenRequest(httpRequest: HttpRequest, request: ProtocolRequest, code: Option<string>, redirectUri: Option<string>, codeVerifier: Option<string>, populate: Populate)
    returns (thrown: Option<ConfigError>)
    modifies httpRequest
    ensures Built(httpRequest.Wire(), thrown) == GrantBuild(AuthorizationCode(code, redirectUri, codeVerifier), old(request.State()), old(httpRequest.Wire()), populate)
    ensures unchanged(request, request.parameters)
  {
    ghost var state := request.State();
    var clone := request.Clone();
    thrown := AddAuthorizationCodeParameters(clone.parameters, code, redirectUri, codeVerifier);
    if thrown.Some? {
      return;
    }
    assert GrantParameters(state.parameters, AuthorizationCode(code, redirectUri, codeVerifier)) == Ok(clone.parameters.entries);
    assert clone.State() == state.(parameters := clone.parameters.entries);
    thrown := SetTokenRequest(httpRequest, clone, None, populate);
  }

  /** The parameter additions of SetRefreshTokenRequest, in place on the clone's bag. */
  method AddRefreshTokenParameters(bag: ParameterBag, refreshToken: Option<string>, scope: Option<string>)
    returns (thrown: Option<ConfigError>)
    modifies bag
    ensures thrown == Raised(RefreshTokenParameters(old(bag.entries), refreshToken, scope))
    ensures thrown.None? ==> bag.entries == RefreshTokenParameters(old(bag.entries), refreshToken, scope).value
  {
    thrown := bag.AddRequired(GrantTypeKey, Some(RefreshTokenGrant), false);
    if thrown.Some? {
      return;
    }
    thrown := bag.AddRequired(RefreshTokenKey, refreshToken, false);
    if thrown.Some? {
      return;
    }
    thrown := bag.AddOptional(ScopeKey, scope);
  }

  method SetRefreshTokenRequest(httpRequest: HttpRequest, request: ProtocolRequest, refreshToken: Option<string>, scope: Option<string>, populate: Populate)
    returns (thrown: Option<ConfigError>)
    modifies httpRequest
    ensures Built(httpRequest.Wire(), thrown) == GrantBuild(RefreshToken(refreshToken, scope), old(request.State()), old(httpRequest.Wire()), populate)
    ensures unchanged(request, request.parameters)
  {
    ghost var state := request.State();
    var clone := request.Clone();
    thrown := AddRefreshTokenParameters(clone.parameters, refreshToken, scope);
    if thrown.Some? {
      return;
    }
    assert GrantParameters(state.parameters, RefreshToken(refreshToken, scope)) == Ok(clone.parameters.entries);
    assert clone.State() == state.(parameters := clone.parameters.entries);
    thrown := SetTokenRequest(httpRequest, clone, None, populate);
  }
}
