/** The configuration values the request path reads (`configuration.Provider`). */
module Configuration {

  datatype Provider = Provider(
    issuerURL: string,           // IssuerURL().String()
    accessTokenStrategy: string, // AccessTokenStrategy()
    shareOAuth2Debug: bool,      // ShareOAuth2Debug()
    errorURL: string             // ErrorURL().String()
  )
  {
    /** Access tokens are signed JWTs and need a signing key id. */
    predicate SignedAccessTokens() { accessTokenStrategy == "jwt" }
  }
}
