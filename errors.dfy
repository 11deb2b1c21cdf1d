/**
 * The errors the client returns. Go builds them with fmt.Errorf and wraps
 * causes with %w; here every message is a constructor and a wrapped cause is
 * an argument, so that callers can tell the layers apart exactly as the
 * wrapping chain does.
 */
module Errors {

  datatype Error =
    // ValidateAuthOptions and NewAuthenticator (auth.go)
    | NilOptions                      // "auth options cannot be nil"
    | MissingIdentityEndpoint         // "identity endpoint is required"
    | NoAuthMethod                    // "no valid authentication method provided"
    | ScopeWithoutTarget              // "scope must specify either project or domain"
    // Authenticate and updateTokenExpiry (auth.go)
    | IdentityRejected                // "failed to authenticate: ..."
    | IntrospectionFailed             // "failed to get token details: ..." (swallowed by Authenticate)
    | EndpointNotFound                // "failed to locate Watcher endpoint: ..."
    | InitialAuthFailed(cause: Error) // "initial authentication failed: %w"
    // GetToken of both authenticators (auth.go)
    | RefreshFailed(cause: Error)     // "failed to re-authenticate: %w"
    | TokenExpired                    // "token expired and auto-reauth is disabled"
    | EmptyToken                      // "token is empty"
    // SessionManager (auth.go)
    | SessionNotFound(name: string)   // "session '%s' not found"
    // Client (client.go)
    | InvalidAuthOptions(cause: Error)  // "invalid auth options: %w"
    | AuthenticatorFailed(cause: Error) // "failed to create authenticator: %w"
    | TokenUnavailable(cause: Error)    // "failed to get valid token: %w"
    | RequestFailed                     // "request failed: ..." (transport error)
    | ReauthFailed(cause: Error)        // "re-authentication failed: %w"
    | Unauthorized                      // "authentication failed: token expired or invalid"
    | AuthInfoUnavailable               // "auth info not available with token authenticator"
    | PingFailed(cause: Error)          // "ping failed: %w"
    | APIError(statusCode: int, message: string, url: string, httpMethod: string)
}
