/**
 * The option records callers fill in: AuthOptions and gophercloud's
 * AuthScope (auth.go), ClientOptions (client.go) and ListOptions (types.go).
 * A Go pointer that may be nil is an Option.
 */
module Options {
  import opened Wrappers

  /** The four identifiers of gophercloud.AuthScope that the client inspects. */
  datatype Scope = Scope(projectID: string, projectName: string, domainID: string, domainName: string)

  datatype AuthOptions = AuthOptions(
    identityEndpoint: string,
    username: string,
    password: string,
    userID: string,
    applicationCredentialID: string,
    applicationCredentialName: string,
    applicationCredentialSecret: string,
    domainID: string,
    domainName: string,
    tenantID: string,
    tenantName: string,
    allowReauth: bool,
    tokenID: string,
    scope: Option<Scope>)

  /** The zero value of AuthOptions, as a Go struct literal that names no field. */
  const ZeroAuthOptions := AuthOptions("", "", "", "", "", "", "", "", "", "", "", false, "", None)

  /** ClientOptions; Timeout is a duration in nanoseconds. */
  datatype ClientOptions = ClientOptions(
    authURL: string,
    username: string,
    password: string,
    projectName: string,
    projectDomainID: string,
    userDomainID: string,
    region: string,
    timeout: int,
    allowReauth: bool)

  datatype ListOptions = ListOptions(limit: int, marker: string, sortKey: string, sortDir: string)
}
