/**
 * Protocol parameter names and values used by the request builders.
 * The names follow RFC 6749 (sections 4.1.3, 4.3.2, 4.4.2 and 6), RFC 7636
 * section 4.5, RFC 8628 sections 3.1 and 3.4, RFC 7662 section 2.1,
 * RFC 7009 section 2.1 and RFC 6750 section 2.1.
 */
module OidcConstants {

  // Token request parameters (RFC 6749, RFC 7636, RFC 8628).
  const GrantTypeKey := "grant_type"
  const ScopeKey := "scope"
  const UserNameKey := "username"
  const PasswordKey := "password"
  const CodeKey := "code"
  const RedirectUriKey := "redirect_uri"
  const CodeVerifierKey := "code_verifier"
  const RefreshTokenKey := "refresh_token"
  const DeviceCodeKey := "device_code"

  // Client authentication parameters (RFC 6749 section 2.3.1, RFC 7521 section 4.2).
  const ClientIdKey := "client_id"
  const ClientSecretKey := "client_secret"
  const ClientAssertionTypeKey := "client_assertion_type"
  const ClientAssertionKey := "client_assertion"

  /** The parameters the client-credential step may place in or take out of a bag. */
  const CredentialParameters: set<string> :=
    {ClientIdKey, ClientSecretKey, ClientAssertionTypeKey, ClientAssertionKey}

  // Introspection (RFC 7662 section 2.1) and revocation (RFC 7009 section 2.1).
  const TokenKey := "token"
  const TokenTypeHintKey := "token_type_hint"

  // Grant type values.
  const ClientCredentialsGrant := "client_credentials"
  const PasswordGrant := "password"
  const AuthorizationCodeGrant := "authorization_code"
  const RefreshTokenGrant := "refresh_token"
  const DeviceCodeGrant := "urn:ietf:params:oauth:grant-type:device_code"

  /** The only media type the builders ask for. */
  const ApplicationJson := "application/json"

  /** The authorization scheme of RFC 6750 section 2.1. */
  const BearerScheme := "Bearer"
}
